/** The operator's Route 53 client with its three caches. The clock stands still during one call. */
module Route53Client {
  import opened Results
  import opened Strings
  import opened Listing
  import opened Cloud
  import opened CacheKeys
  import opened Deletions
  import opened NameServers
  import opened Upserts
  import opened ZoneCaches

  /** There are orders as AWS's listings are assumed to use. */
  lemma GoOrderIsSound()
    ensures Sound(Order(StringLess, StringLess))
  {
    forall a, b, c
      ensures !StringLess(a, a) && (a == b || StringLess(a, b) || StringLess(b, a))
      ensures StringLess(a, b) && StringLess(b, c) ==> StringLess(a, c)
    {
      StringLessTrichotomy(a, b);
      StringLessTrichotomy(a, a);
      if StringLess(a, b) && StringLess(b, c) {
        StringLessTransitive(a, b, c);
      }
    }
  }

  /** The id of the page's one zone of the wanted name, "" for none, an error for several. */
  ghost predicate Found(page: seq<Key>, wanted: string, r: Result<string>) {
    && (r.Ok? && r.value == "" ==> forall i :: 0 <= i < |page| ==> page[i].name != wanted)
    && (r.Ok? && r.value != "" ==>
          exists at ::
            && 0 <= at < |page| && r.value == SanitizeZoneId(page[at].kind)
            && forall i :: 0 <= i < |page| ==> (page[i].name == wanted <==> i == at))
    && (r.Err? ==> exists i, j :: 0 <= i < j < |page| && page[i].name == page[j].name == wanted)
  }

  method FindZone(page: seq<Key>, wanted: string) returns (r: Result<string>)
    requires forall i :: 0 <= i < |page| ==> SanitizeZoneId(page[i].kind) != ""
    ensures Found(page, wanted, r)
  {
    var found := "";
    ghost var at := 0;
    for i := 0 to |page|
      invariant found == "" ==> forall k :: 0 <= k < i ==> page[k].name != wanted
      invariant found != "" ==>
        && at < i && found == SanitizeZoneId(page[at].kind)
        && forall k :: 0 <= k < i ==> (page[k].name == wanted <==> k == at)
    {
      if page[i].name == wanted {
        if found != "" {
          assert page[at].name == page[i].name == wanted;
          return Err(Failed);
        }
        found := SanitizeZoneId(page[i].kind);
        at := i;
      }
    }
    r := Ok(found);
  }

  /** Every zone of a page is cached, not only the wanted one. */
  function CachedPage(cache: Cache<string>, page: seq<Key>, now: nat): Cache<string> {
    if page == [] then cache
    else
      var last := page[|page| - 1];
      SetDefault(CachedPage(cache, page[..|page| - 1], now), TrimDot(last.name), SanitizeZoneId(last.kind), now, ZONE_TTL)
  }

  method CachePage(cache: Cache<string>, page: seq<Key>, now: nat) returns (r: Cache<string>)
    ensures r == CachedPage(cache, page, now)
  {
    r := cache;
    for i := 0 to |page|
      invariant r == CachedPage(cache, page[..i], now)
    {
      assert page[..i + 1][..i] == page[..i];
      r := SetDefault(r, TrimDot(page[i].name), SanitizeZoneId(page[i].kind), now, ZONE_TTL);
    }
    assert page[..|page|] == page;
  }

  /** The present is the last recorded moment. */
  predicate IsNow(trail: seq<Moment>, st: State, now: nat) {
    |trail| > 0 && trail[|trail| - 1].route53 == st && trail[|trail| - 1].time == now
  }

  /** Caching what AWS just showed keeps the cache sound, witnessed by the present moment. */
  lemma CachingOneIsSound(cache: Cache<string>, account: string, name: string, id: string, now: nat, st: State,
                          trail: seq<Moment>)
    requires IsNow(trail, st, now) && ZoneIdsSound(cache, account, st, now, trail)
    requires KnownAs(st.born, account, id, name)
    requires id in st.zones && st.zones[id].account == account && st.zones[id].name == Canonical(name)
    ensures ZoneIdsSound(SetDefault(cache, name, id, now, ZONE_TTL), account, st, now, trail)
  {
    hide Canonical;
    var after := SetDefault(cache, name, id, now, ZONE_TTL);
    assert Saw(trail[|trail| - 1], account, id, name);
    assert SeenAt(trail, now, account, id, name);
    forall n | n in after ensures SeenAt(trail, after[n].expires - ZONE_TTL, account, after[n].value, n) {
      if n != name {
        assert SeenAt(trail, cache[n].expires - ZONE_TTL, account, cache[n].value, n);
      }
    }
  }

  /** Caching an existing zone under its name without the final dot keeps the cache exact. */
  lemma CachingOneKeepsExact(cache: Cache<string>, account: string, name: string, id: string, now: nat, st: State)
    requires Exact(cache, account, st, now) && EntryExact(st, account, name, id)
    ensures Exact(SetDefault(cache, name, id, now, ZONE_TTL), account, st, now)
  {
    hide EntryExact;
    hide UniqueNames;
  }

  lemma CachingListedIsSound(cache: Cache<string>, account: string, key: Key, now: nat, st: State, trail: seq<Moment>)
    requires ValidState(st) && IsNow(trail, st, now) && ZoneIdsSound(cache, account, st, now, trail)
    requires key in ZoneKeys(st, account)
    ensures
      var after := SetDefault(cache, TrimDot(key.name), SanitizeZoneId(key.kind), now, ZONE_TTL);
      && ZoneIdsSound(after, account, st, now, trail)
      && (Exact(cache, account, st, now) ==> Exact(after, account, st, now))
  {
    ListedZone(st, account, key);
    StoredNameTrims(key.name);
    CachingOneIsSound(cache, account, TrimDot(key.name), SanitizeZoneId(key.kind), now, st, trail);
    if Exact(cache, account, st, now) {
      CachingOneKeepsExact(cache, account, TrimDot(key.name), SanitizeZoneId(key.kind), now, st);
    }
  }

  lemma {:induction false} CachingPageIsSound(cache: Cache<string>, account: string, page: seq<Key>, now: nat,
                                              st: State, trail: seq<Moment>)
    requires ValidState(st) && IsNow(trail, st, now) && ZoneIdsSound(cache, account, st, now, trail)
    requires forall i :: 0 <= i < |page| ==> page[i] in ZoneKeys(st, account)
    ensures ZoneIdsSound(CachedPage(cache, page, now), account, st, now, trail)
    ensures Exact(cache, account, st, now) ==> Exact(CachedPage(cache, page, now), account, st, now)
    decreases |page|
  {
    if page != [] {
      var init := page[..|page| - 1];
      CachingPageIsSound(cache, account, init, now, st, trail);
      CachingListedIsSound(CachedPage(cache, init, now), account, page[|page| - 1], now, st, trail);
    }
  }

  lemma StoredHasOneDot(name: string)
    requires Stored(name)
    ensures TrimDot(TrimDot(name)) == TrimDot(name)
  {
    assert TrimDot(TrimDot(name)) + "." == name;
    assert TrimDot(name) == (TrimDot(TrimDot(name)) + ".")[..|name| - 1];
  }

  /** Entries under a name with a final dot are left alone, and every new entry is exact. */
  ghost predicate OnlyAdds(cache: Cache<string>, after: Cache<string>, account: string, st: State) {
    && (forall k :: k in cache && TrimDot(k) != k ==> k in after && after[k] == cache[k])
    && (forall k :: k in after ==> (k in cache && after[k] == cache[k]) || EntryExact(st, account, k, after[k].value))
  }

  lemma OneMoreIsAdded(cache: Cache<string>, before: Cache<string>, account: string, name: string,
                          id: string, now: nat, st: State)
    requires OnlyAdds(cache, before, account, st) && TrimDot(name) == name && EntryExact(st, account, name, id)
    ensures OnlyAdds(cache, SetDefault(before, name, id, now, ZONE_TTL), account, st)
  {
    hide EntryExact;
    hide TrimDot;
  }

  lemma {:induction false} PageKeepsDotted(cache: Cache<string>, account: string, page: seq<Key>, now: nat, st: State)
    requires ValidState(st) && forall i :: 0 <= i < |page| ==> page[i] in ZoneKeys(st, account)
    ensures OnlyAdds(cache, CachedPage(cache, page, now), account, st)
    decreases |page|
  {
    hide Canonical;
    hide OnlyAdds;
    if page == [] {
      AddsNothing(cache, account, st);
    } else {
      var init, last := page[..|page| - 1], page[|page| - 1];
      PageKeepsDotted(cache, account, init, now, st);
      ListedZone(st, account, last);
      StoredHasOneDot(last.name);
      OneMoreIsAdded(cache, CachedPage(cache, init, now), account, TrimDot(last.name), SanitizeZoneId(last.kind), now, st);
    }
  }

  lemma AddingKeepsPlain(cache: Cache<string>, after: Cache<string>, account: string, st: State, written: string)
    requires PlainKeys(cache) && ValidState(st) && Plain(written)
    requires forall k :: k in after && k != written ==>
      (k in cache && after[k] == cache[k]) || EntryExact(st, account, k, after[k].value)
    ensures PlainKeys(after)
  {
    hide Plain;
    hide EntryExact;
    forall k | k in after ensures Plain(k) {
      if k != written && k !in cache {
        ExactIsPlain(st, account, k, after[k].value);
      }
    }
  }

  lemma OnlyAddingKeepsPlain(cache: Cache<string>, after: Cache<string>, account: string, st: State)
    requires PlainKeys(cache) && ValidState(st) && OnlyAdds(cache, after, account, st)
    ensures PlainKeys(after)
  {
    hide Plain;
    hide EntryExact;
    forall k | k in after ensures Plain(k) {
      if k !in cache {
        ExactIsPlain(st, account, k, after[k].value);
      }
    }
  }

  lemma ForgettingKeepsPlain(cache: Cache<string>, after: Cache<string>, id: string, now: nat)
    requires PlainKeys(cache) && Forgotten(cache, after, id, now)
    ensures PlainKeys(after)
  {
    hide Plain;
  }

  /** What a lookup finds, in the cache or in the listing, has a name as Route 53 stores it. */
  lemma FoundIsPlain(cache: Cache<string>, st: State, account: string, name: string, now: nat, r: Result<string>)
    requires PlainKeys(cache) && ValidState(st) && r.Ok?
    requires Get(cache, name, now).None? ==> Answers(st, account, name, r)
    ensures Plain(name)
  {
    hide Plain;
    if Get(cache, name, now).None? {
      NamedIsPlain(st, account, r.value, name);
    }
  }

  lemma AddsNothing(cache: Cache<string>, account: string, st: State)
    ensures OnlyAdds(cache, cache, account, st)
  {
  }

  /** The zone that was found is cached under its bare name. */
  lemma FoundIsCached(cache: Cache<string>, account: string, page: seq<Key>, name: string, id: string, now: nat, st: State)
    requires ValidState(st) && forall i :: 0 <= i < |page| ==> page[i] in ZoneKeys(st, account)
    requires Found(page, Dotted(name), Ok(id)) && id != "" && Bare(name)
    ensures Get(CachedPage(cache, page, now), name, now) == Some(id)
  {
    var at :|
      && 0 <= at < |page| && id == SanitizeZoneId(page[at].kind)
      && forall i :: 0 <= i < |page| ==> (page[i].name == Dotted(name) <==> i == at);
    ListedZone(st, account, page[at]);
    WantedIsCanonical(page[at].name, name);
    hide Canonical;
    forall i | 0 <= i < |page| ensures TrimDot(page[i].name) == name <==> i == at {
      ListedZone(st, account, page[i]);
    }
    OneIsCached(cache, page, name, at, now);
  }

  lemma {:induction false} OneIsCached(cache: Cache<string>, page: seq<Key>, name: string, at: nat, now: nat)
    requires at < |page| && forall i :: 0 <= i < |page| ==> (TrimDot(page[i].name) == name <==> i == at)
    ensures Get(CachedPage(cache, page, now), name, now) == Some(SanitizeZoneId(page[at].kind))
    decreases |page|
  {
    if at < |page| - 1 {
      OneIsCached(cache, page[..|page| - 1], name, at, now);
    }
  }

  lemma IsKnown(cache: Cache<string>, account: string, st: State, now: nat, trail: seq<Moment>, name: string)
    requires ZoneIdsSound(cache, account, st, now, trail) && Get(cache, name, now).Some?
    ensures KnownAs(st.born, account, cache[name].value, name)
    ensures Recent(trail, now, account, cache[name].value, name)
  {
    HitIsRecent(cache, account, trail, now, name);
  }

  class Route53 {
    const cloud: World
    const account: string
    const printable: char -> bool
    const canonicalZone: string -> string  // the load balancer zone of a region
    var upserts: Cache<bool>
    var nsRecords: Cache<RecordSet>
    var zoneIds: Cache<string>

    constructor (cloud: World, account: string, printable: char -> bool, canonicalZone: string -> string)
      requires cloud.Valid()
      ensures Valid() && this.cloud == cloud && this.account == account
      ensures this.printable == printable && this.canonicalZone == canonicalZone
      ensures upserts == map[] && nsRecords == map[] && zoneIds == map[]
    {
      this.cloud, this.account := cloud, account;
      this.printable, this.canonicalZone := printable, canonicalZone;
      upserts, nsRecords, zoneIds := map[], map[], map[];
    }

    ghost predicate Truthful()
      reads this, cloud
    {
      && ZoneIdsSound(zoneIds, account, cloud.route53, cloud.now, cloud.trail)
      && NsSound(nsRecords, cloud.now, cloud.trail)
      && Honest(upserts, cloud.now, UPSERT_TTL)
    }

    ghost predicate Valid()
      reads this, cloud
    {
      cloud.Valid() && Truthful()
    }

    lemma StateIsValid()
      requires Valid()
      ensures cloud.Valid() && ValidState(cloud.route53)
    {
    }

    /** Holds while this client is the only writer of its account's zones. */
    ghost predicate ZoneIdsExact()
      reads this, cloud
    {
      Exact(zoneIds, account, cloud.route53, cloud.now)
    }

    twostate lemma TimeKeepsExact()
      requires old(ZoneIdsExact()) && zoneIds == old(zoneIds)
      requires cloud.route53 == old(cloud.route53) && old(cloud.now) <= cloud.now
      ensures ZoneIdsExact()
    {
    }

    /** Every cached NS set is the one its zone was born with. */
    ghost predicate NsOwn()
      reads this, cloud
    {
      NsTruthful(nsRecords, cloud.route53.born)
    }

    twostate lemma OwnSurvives()
      requires old(NsOwn()) && nsRecords == old(nsRecords) && Later(old(cloud.route53), cloud.route53)
      ensures NsOwn()
    {
      OwnNsSurvives(nsRecords, old(cloud.route53), cloud.route53);
    }

    method GetHostedZoneIdByName(zoneName: string) returns (r: Result<string>)
      requires Valid()
      modifies this`zoneIds, cloud`trail
      ensures Valid()
      ensures Passed(old(cloud.trail), cloud.trail, cloud.Here(), cloud.Here())
      ensures r.Ok? ==> KnownAs(cloud.route53.born, account, r.value, zoneName)
      ensures r.Ok? ==> Recent(cloud.trail, cloud.now, account, r.value, zoneName)
      ensures r == Err(ZoneNotFound) ==> NoZone(cloud.route53, account, zoneName)
      ensures old(ZoneIdsExact()) ==> ZoneIdsExact()
      ensures old(ZoneIdsExact()) && (cloud.reliable || r != Err(Failed)) ==>
        Answers(cloud.route53, account, zoneName, r)
      ensures old(Get(zoneIds, zoneName, cloud.now)).Some? ==>
        r == Ok(old(Get(zoneIds, zoneName, cloud.now)).value) && zoneIds == old(zoneIds)
      ensures old(Get(zoneIds, zoneName, cloud.now)).None? && (cloud.reliable || r != Err(Failed)) ==>
        Answers(cloud.route53, account, zoneName, r)
      ensures OnlyAdds(old(zoneIds), zoneIds, account, cloud.route53)
      ensures r.Ok? && Bare(zoneName) ==> Get(zoneIds, zoneName, cloud.now) == Some(r.value)
    {
      hide Canonical;
      hide Answers;
      hide Exact;
      hide ZoneIdsSound;
      hide NsSound;
      hide NoZone;
      hide OnlyAdds;
      AddsNothing(zoneIds, account, cloud.route53);
      var cached := Get(zoneIds, zoneName, cloud.now);
      if cached.Some? {
        IsKnown(zoneIds, account, cloud.route53, cloud.now, cloud.trail, zoneName);
        r := Ok(cached.value);
        if ZoneIdsExact() {
          CachedAnswers(zoneIds, account, cloud.route53, cloud.now, zoneName);
        }
      } else {
        r := RequestZoneId(zoneName);
      }
    }

    method RequestZoneId(zoneName: string) returns (r: Result<string>)
      requires Valid()
      modifies this`zoneIds, cloud`trail
      ensures Valid()
      ensures cloud.trail == old(cloud.trail) + [cloud.Here()]
      ensures r.Ok? ==> Recent(cloud.trail, cloud.now, account, r.value, zoneName)
      ensures r == Err(ZoneNotFound) ==> NoZone(cloud.route53, account, zoneName)
      ensures r.Ok? ==> KnownAs(cloud.route53.born, account, r.value, zoneName)
      ensures cloud.reliable || r != Err(Failed) ==> Answers(cloud.route53, account, zoneName, r)
      ensures old(ZoneIdsExact()) ==> ZoneIdsExact()
      ensures OnlyAdds(old(zoneIds), zoneIds, account, cloud.route53)
      ensures r.Ok? && Bare(zoneName) ==> Get(zoneIds, zoneName, cloud.now) == Some(r.value)
    {
      hide Canonical;
      hide OnlyAdds;
      hide Answers;
      hide Exact;
      hide ZoneIdsSound;
      hide NsSound;
      hide NoZone;
      hide KnownAs;
      hide ValidState;
      hide Sound;
      hide IsPage;
      hide Found;
      hide Bare;
      hide Recent;
      hide Honest;
      hide CachedPage;
      AddsNothing(zoneIds, account, cloud.route53);
      ghost var st, trail := cloud.route53, cloud.trail;
      var listed := cloud.ListHostedZonesByName(account, zoneName, MAX_ZONES);
      Settle(st, trail);
      if listed.Err? {
        return Err(listed.error);
      }
      var found := FindListed(zoneName, listed.value);
      if found.Err? {
        return Err(Failed);
      }
      Remember(listed.value);
      PageKeepsDotted(old(zoneIds), account, listed.value, cloud.now, st);
      if found.value == "" {
        NoneAnswers(st, account, zoneName);
        return Err(ZoneNotFound);
      }
      ListedIsRecent(st, account, cloud.trail, cloud.now, found.value, zoneName);
      OneAnswers(st, account, zoneName, found.value);
      if Bare(zoneName) {
        FoundIsCached(old(zoneIds), account, listed.value, zoneName, found.value, cloud.now, st);
      }
      r := Ok(found.value);
    }

    method FindListed(zoneName: string, page: seq<Key>) returns (found: Result<string>)
      requires cloud.Valid()
      requires IsPage(cloud.order, ZoneKeys(cloud.route53, account), FromName(Canonical(zoneName)), MAX_ZONES, page)
      ensures found.Ok? && found.value == "" ==> NoZone(cloud.route53, account, zoneName)
      ensures found.Ok? && found.value != "" ==> OnlyZone(cloud.route53, account, found.value, zoneName)
      ensures found.Ok? && found.value != "" ==> KnownAs(cloud.route53.born, account, found.value, zoneName)
      ensures found.Err? ==> Answers(cloud.route53, account, zoneName, Err(Failed))
      ensures Found(page, Dotted(zoneName), found)
    {
      forall i | 0 <= i < |page| ensures SanitizeZoneId(page[i].kind) != "" {
        ListedZone(cloud.route53, account, page[i]);
      }
      found := FindZone(page, Dotted(zoneName));
      PageAnswers(cloud.order, cloud.route53, account, zoneName, page, found);
    }

    method Remember(page: seq<Key>)
      requires Valid() && IsNow(cloud.trail, cloud.route53, cloud.now)
      requires forall i :: 0 <= i < |page| ==> page[i] in ZoneKeys(cloud.route53, account)
      modifies this`zoneIds
      ensures Valid()
      ensures old(ZoneIdsExact()) ==> ZoneIdsExact()
      ensures zoneIds == CachedPage(old(zoneIds), page, cloud.now)
    {
      CachingPageIsSound(zoneIds, account, page, cloud.now, cloud.route53, cloud.trail);
      zoneIds := CachePage(zoneIds, page, cloud.now);
    }

    /** The caches after a remote call, whatever it did. */
    ghost method Settle(st: State, trail: seq<Moment>)
      requires cloud.Valid()
      requires ZoneIdsSound(zoneIds, account, st, cloud.now, trail) && NsSound(nsRecords, cloud.now, trail)
      requires Honest(upserts, cloud.now, UPSERT_TTL)
      requires Later(st, cloud.route53) && trail <= cloud.trail
      ensures Valid()
    {
      CachesSurvive(zoneIds, nsRecords, account, st, cloud.route53, cloud.now, cloud.now, trail, cloud.trail);
    }

    /** What happens to a client's caches while it is not used: nothing that makes them unsound. */
    twostate lemma Survives()
      requires old(Valid()) && unchanged(this) && cloud.Valid()
      requires Later(old(cloud.route53), cloud.route53) && old(cloud.trail) <= cloud.trail && old(cloud.now) <= cloud.now
      ensures Valid()
    {
      CachesSurvive(zoneIds, nsRecords, account, old(cloud.route53), cloud.route53, old(cloud.now), cloud.now,
                    old(cloud.trail), cloud.trail);
    }

    /** Finds the zone or creates it, then tags it. A zone is created only when none of that name exists. */
    method CreateHostedZone(dnsName: string, tags: map<string, string>)
      returns (r: Result<string>, ghost made: Option<(string, seq<string>)>)
      requires Valid()
      modifies this`zoneIds, cloud`route53, cloud`trail
      ensures Valid()
      ensures Passed(old(cloud.trail), cloud.trail, old(cloud.Here()), cloud.Here())
      ensures made.None? ==> cloud.route53 == old(cloud.route53)
      ensures made.Some? ==>
        && NoZone(old(cloud.route53), account, dnsName)
        && made.value.0 !in old(cloud.route53).born && made.value.1 != []
        && cloud.route53 == Created(old(cloud.route53), made.value.0, account, Canonical(dnsName), made.value.1)
      ensures r.Ok? ==> KnownAs(cloud.route53.born, account, r.value, dnsName)
      ensures r.Ok? && tags != map[] ==> r.value in cloud.route53.zones
      ensures r != Err(ZoneNotFound)
      ensures cloud.reliable && WillCreate(old(Get(zoneIds, dnsName, cloud.now)), old(cloud.route53), account, dnsName) ==>
        r.Ok? && made.Some?
      ensures cloud.reliable && WillFind(old(Get(zoneIds, dnsName, cloud.now)), old(cloud.route53), account, dnsName) ==> r.Ok?
      ensures old(ZoneIdsExact()) && Bare(dnsName) ==> ZoneIdsExact()
      ensures made.Some? && r.Ok? ==> r.value == made.value.0 && Get(zoneIds, dnsName, cloud.now) == Some(r.value)
      ensures old(Get(zoneIds, dnsName, cloud.now)).None? && made.None? && r.Ok? ==>
        OnlyZone(cloud.route53, account, r.value, dnsName)
      ensures forall k :: k in zoneIds && k != dnsName ==>
        (k in old(zoneIds) && zoneIds[k] == old(zoneIds)[k]) || EntryExact(old(cloud.route53), account, k, zoneIds[k].value)
    {
      hide Canonical;
      hide WillCreate;
      hide WillFind;
      hide KnownAs;
      hide ValidState;
      hide NsSound;
      hide Honest;
      hide EntryExact;
      hide OnlyZone;
      hide NoZone;
      hide ZoneIdsSound;
      hide Exact;
      r, made := FindOrCreate(dnsName);
      if r.Ok? {
        var tagged := TagHostedZone(r.value, tags);
        if tagged.Err? {
          r := Err(tagged.error);
        }
      }
    }

    method FindOrCreate(dnsName: string) returns (r: Result<string>, ghost made: Option<(string, seq<string>)>)
      requires Valid()
      modifies this`zoneIds, cloud`route53, cloud`trail
      ensures Valid()
      ensures Passed(old(cloud.trail), cloud.trail, old(cloud.Here()), cloud.Here())
      ensures made.None? ==> cloud.route53 == old(cloud.route53)
      ensures made.Some? ==> NoZone(old(cloud.route53), account, dnsName) && made.value.1 != []
      ensures made.Some? ==> made.value.0 !in old(cloud.route53).born
      ensures made.Some? ==>
        cloud.route53 == Created(old(cloud.route53), made.value.0, account, Canonical(dnsName), made.value.1)
      ensures r != Err(ZoneNotFound)
      ensures cloud.reliable && WillCreate(old(Get(zoneIds, dnsName, cloud.now)), old(cloud.route53), account, dnsName) ==>
        r.Ok? && made.Some?
      ensures cloud.reliable && WillFind(old(Get(zoneIds, dnsName, cloud.now)), old(cloud.route53), account, dnsName) ==>
        r.Ok? && r.value in cloud.route53.zones
      ensures r.Ok? ==> KnownAs(cloud.route53.born, account, r.value, dnsName)
      ensures old(ZoneIdsExact()) && Bare(dnsName) ==> ZoneIdsExact()
      ensures made.Some? && r.Ok? ==> r.value == made.value.0 && Get(zoneIds, dnsName, cloud.now) == Some(r.value)
      ensures old(Get(zoneIds, dnsName, cloud.now)).None? && made.None? && r.Ok? ==>
        OnlyZone(cloud.route53, account, r.value, dnsName)
      ensures forall k :: k in zoneIds && k != dnsName ==>
        (k in old(zoneIds) && zoneIds[k] == old(zoneIds)[k]) || EntryExact(old(cloud.route53), account, k, zoneIds[k].value)
    {
      hide Canonical;
      hide EntryExact;
      hide OnlyZone;
      hide NoZone;
      hide ZoneIdsSound;
      hide Exact;
      hide Answers;
      made := None;
      ghost var cached, st := Get(zoneIds, dnsName, cloud.now), cloud.route53;
      r := GetHostedZoneIdByName(dnsName);
      if cached.None? && r.Ok? {
        AnswerIsOnly(st, account, dnsName, r);
      }
      if cached.None? && cloud.reliable {
        if WillCreate(cached, st, account, dnsName) {
          NoneAnswer(st, account, dnsName, r);
        } else if WillFind(cached, st, account, dnsName) {
          FoundAnswer(st, account, dnsName, r);
        }
      }
      if r == Err(ZoneNotFound) {
        r, made := CreateMissing(dnsName);
      }
    }

    method CreateMissing(dnsName: string) returns (r: Result<string>, ghost made: Option<(string, seq<string>)>)
      requires Valid() && NoZone(cloud.route53, account, dnsName)
      modifies this`zoneIds, cloud`route53, cloud`trail
      ensures Valid()
      ensures cloud.trail == old(cloud.trail) + [cloud.Here()]
      ensures made.None? ==> cloud.route53 == old(cloud.route53) && r.Err?
      ensures made.Some? ==>
        && made.value.0 !in old(cloud.route53).born && made.value.1 != []
        && cloud.route53 == Created(old(cloud.route53), made.value.0, account, Canonical(dnsName), made.value.1)
      ensures r != Err(ZoneNotFound) && (cloud.reliable && Stored(Canonical(dnsName)) ==> r.Ok?)
      ensures r.Ok? ==> KnownAs(cloud.route53.born, account, r.value, dnsName)
      ensures old(ZoneIdsExact()) && Bare(dnsName) ==> ZoneIdsExact()
      ensures r.Ok? ==> r.value == made.value.0 && zoneIds == SetDefault(old(zoneIds), dnsName, r.value, cloud.now, ZONE_TTL)
      ensures r.Err? ==> zoneIds == old(zoneIds)
    {
      hide Canonical;
      ghost var st, trail := cloud.route53, cloud.trail;
      r, made := cloud.CreateHostedZone(account, dnsName);
      Settle(st, trail);
      if made.Some? {
        CreatingKeepsExact(zoneIds, account, st, cloud.now, dnsName, made.value.0, made.value.1);
      }
      if r.Ok? {
        SanitizeRawId(made.value.0);
        r := Ok(SanitizeZoneId(r.value));
        RememberOne(dnsName, r.value);
      }
    }

    method RememberOne(name: string, id: string)
      requires Valid() && IsNow(cloud.trail, cloud.route53, cloud.now)
      requires KnownAs(cloud.route53.born, account, id, name)
      requires id in cloud.route53.zones && cloud.route53.zones[id].account == account
      requires cloud.route53.zones[id].name == Canonical(name)
      modifies this`zoneIds
      ensures Valid()
      ensures old(ZoneIdsExact()) && Bare(name) ==> ZoneIdsExact()
      ensures zoneIds == SetDefault(old(zoneIds), name, id, cloud.now, ZONE_TTL)
    {
      hide Canonical;
      hide Exact;
      CachingOneIsSound(zoneIds, account, name, id, cloud.now, cloud.route53, cloud.trail);
      if Exact(zoneIds, account, cloud.route53, cloud.now) && Bare(name) {
        CachingOneKeepsExact(zoneIds, account, name, id, cloud.now, cloud.route53);
      }
      zoneIds := SetDefault(zoneIds, name, id, cloud.now, ZONE_TTL);
    }

    method TagHostedZone(id: string, tags: map<string, string>) returns (r: Result<()>)
      requires Valid()
      modifies cloud`trail
      ensures Valid()
      ensures Passed(old(cloud.trail), cloud.trail, cloud.Here(), cloud.Here())
      ensures r != Err(ZoneNotFound) && (cloud.reliable && id in cloud.route53.zones ==> r.Ok?)
      ensures r.Ok? && tags != map[] ==> id in cloud.route53.zones
    {
      if tags == map[] {
        return Ok(());
      }
      ghost var st, trail := cloud.route53, cloud.trail;
      r := cloud.ChangeTags(id);
      Settle(st, trail);
    }

    /** Forgets one cached name of the zone, then deletes the zone; one that is gone already is no error. */
    method DeleteHostedZone(zoneId: string) returns (r: Result<()>)
      requires Valid()
      modifies this`zoneIds, cloud`route53, cloud`trail
      ensures Valid()
      ensures cloud.trail == old(cloud.trail) + [cloud.Here()]
      ensures cloud.route53 == old(cloud.route53)
           || (zoneId in old(cloud.route53).zones && Deletable(old(cloud.route53).zones[zoneId])
               && cloud.route53 == WithoutZone(old(cloud.route53), zoneId))
      ensures r.Ok? ==> zoneId !in cloud.route53.zones
      ensures cloud.reliable && zoneId in old(cloud.route53).zones && Deletable(old(cloud.route53).zones[zoneId]) ==> r.Ok?
      ensures old(ZoneIdsExact()) ==> ZoneIdsExact()
      ensures Forgotten(old(zoneIds), zoneIds, zoneId, cloud.now)
    {
      ghost var cache := zoneIds;
      zoneIds := Forget(zoneIds, zoneId, cloud.now);
      FewerEntriesAreSound(cache, zoneIds, account, cloud.now, cloud.route53, cloud.trail);
      if Exact(cache, account, cloud.route53, cloud.now) {
        ForgettingIsEnough(cache, zoneIds, account, zoneId, cloud.now, cloud.route53);
      }
      ghost var st, trail := cloud.route53, cloud.trail;
      r := cloud.DeleteHostedZone(zoneId);
      Settle(st, trail);
      if r == Err(NoSuchHostedZone) {
        r := Ok(());
      }
    }

    /** The NS set listed first from a name; asked with the name of the zone, it is the zone's own. */
    method GetHostedZoneNSRecord(zoneId: string, zoneName: string) returns (r: Result<DnsRecord>)
      requires Valid()
      modifies this`nsRecords, cloud`trail
      ensures Valid()
      ensures Passed(old(cloud.trail), cloud.trail, cloud.Here(), cloud.Here())
      ensures old(ZoneIdsExact()) ==> ZoneIdsExact()
      ensures r.Ok? ==> r.value.kind == NS && r.value.values != [] && r.value.region == ""
      ensures r.Ok? ==> exists ttl :: HadRecently(cloud.trail, cloud.now, zoneId, NsRecordSet(r.value, ttl))
      ensures old(NsOwn()) && AsksOwn(cloud.route53, account, zoneId, zoneName) ==> NsOwn()
      ensures old(NsOwn()) && AsksOwn(cloud.route53, account, zoneId, zoneName) && r.Ok? ==>
        r.value == DnsRecord(NS, Canonical(zoneName), cloud.route53.born[zoneId].nameServers, "")
      ensures cloud.reliable && zoneId in cloud.route53.zones && AsksOwn(cloud.route53, account, zoneId, zoneName) ==> r.Ok?
    {
      hide Canonical;
      hide ZoneIdsSound;
      hide NsSound;
      hide Exact;
      hide ValidState;
      hide HadRecently;
      var cached := Get(nsRecords, zoneId, cloud.now);
      var listed: RecordSet;
      if cached.Some? {
        listed := cached.value;
        NsHitIsRecent(nsRecords, cloud.now, cloud.trail, zoneId);
      } else {
        var requested := RequestNSRecord(zoneId, zoneName);
        if requested.Err? {
          return Err(requested.error);
        }
        listed := requested.value;
        CachingNsIsSound(nsRecords, cloud.now, cloud.trail, zoneId, listed);
        nsRecords := SetDefault(nsRecords, zoneId, listed, cloud.now, NS_TTL);
      }
      r := Ok(DnsRecord(listed.key.kind, listed.key.name, listed.data.values, ""));
      assert NsRecordSet(r.value, listed.data.ttl) == listed;
    }

    method RequestNSRecord(zoneId: string, zoneName: string) returns (r: Result<RecordSet>)
      requires Valid()
      modifies cloud`trail
      ensures Valid()
      ensures cloud.trail == old(cloud.trail) + [cloud.Here()]
      ensures old(ZoneIdsExact()) ==> ZoneIdsExact()
      ensures r.Ok? ==> IsNsSet(r.value) && Had(cloud.Here(), zoneId, r.value)
      ensures r.Ok? && AsksOwn(cloud.route53, account, zoneId, zoneName) ==> IsNsOf(r.value, cloud.route53.born[zoneId])
      ensures cloud.reliable && zoneId in cloud.route53.zones && AsksOwn(cloud.route53, account, zoneId, zoneName) ==> r.Ok?
    {
      hide Canonical;
      hide IsPage;
      ghost var st, trail := cloud.route53, cloud.trail;
      var page := cloud.ListRecordSets(zoneId, FromKey(Key(zoneName, NS)), 1);
      Settle(st, trail);
      if page.Err? {
        return Err(page.error);
      }
      assert ValidZone(st, zoneId);
      if AsksOwn(st, account, zoneId, zoneName) {
        OneItemIsApex(cloud.order, st, zoneId, page.value);
      }
      if |page.value| != 1 || page.value[0].key.kind != NS || page.value[0].data.AliasTo? || page.value[0].data.values == [] {
        return Err(Failed);
      }
      r := Ok(page.value[0]);
    }

    method DnsRecordExists(zoneId: string, recordName: string) returns (r: Result<bool>)
      requires Valid()
      modifies cloud`trail
      ensures Valid()
      ensures Passed(old(cloud.trail), cloud.trail, cloud.Here(), cloud.Here())
      ensures r.Ok? ==> zoneId in cloud.route53.zones
      ensures r.Ok? ==> (r.value <==> Plain(recordName) && HasName(cloud.route53.zones[zoneId].sets, recordName))
      ensures cloud.reliable && zoneId in cloud.route53.zones ==> r.Ok?
      ensures old(ZoneIdsExact()) ==> ZoneIdsExact()
    {
      hide Canonical;
      hide IsPage;
      hide Shown;
      hide HasName;
      ghost var st, trail := cloud.route53, cloud.trail;
      var page := cloud.ListRecordSets(zoneId, FromName(recordName), 1);
      Settle(st, trail);
      if page.Err? {
        return Err(page.error);
      }
      ZoneSetsAreValid(st, zoneId);
      hide ValidState;
      hide ValidSets;
      OneItemDecidesRecord(cloud.order, st.zones[zoneId].sets, recordName, page.value);
      ShownIff(st.zones[zoneId].sets, recordName);
      for i := 0 to |page.value|
        invariant i == 1 ==> page.value[0].key.name != Dotted(recordName)
      {
        if page.value[i].key.name == Dotted(recordName) {
          OnlyOne(page.value, i, cloud.order, st.zones[zoneId].sets, CanonicalStart(FromName(recordName)));
          return Ok(true);
        }
      }
      r := Ok(false);
    }

    ghost function Seen(): View
      reads this, cloud
    {
      View(upserts, cloud.route53, cloud.now)
    }

    lemma SeenIs()
      ensures Seen() == View(upserts, cloud.route53, cloud.now)
    {
    }

    lemma UpsertsAreHonest()
      requires Valid()
      ensures Honest(upserts, cloud.now, UPSERT_TTL)
    {
    }

    /** Both kinds of upsert: skipped if remembered, else sent, and remembered if that succeeded. */
    method UpsertUnlessRemembered(key: string, zoneId: string, changes: seq<Change>) returns (r: Result<()>)
      requires Valid()
      modifies this`upserts, cloud`route53, cloud`trail
      ensures Valid()
      ensures Passed(old(cloud.trail), cloud.trail, old(cloud.Here()), cloud.Here())
      ensures UpsertStep(old(Seen()), Seen(), key, zoneId, changes, r.Ok?)
      ensures cloud.reliable && Changed(old(cloud.route53), zoneId, changes).Some? ==> r.Ok?
      ensures old(ZoneIdsExact()) ==> ZoneIdsExact()
    {
      hide Changed;
      hide ZoneIdsSound;
      hide NsSound;
      hide Exact;
      hide ValidState;
      if Get(upserts, key, cloud.now).Some? {
        return Ok(());
      }
      r := Send(zoneId, changes);
      if r.Ok? {
        upserts := SetDefault(upserts, key, true, cloud.now, UPSERT_TTL);
      }
    }

    method Send(zoneId: string, changes: seq<Change>) returns (r: Result<()>)
      requires Valid()
      modifies cloud`route53, cloud`trail
      ensures Valid()
      ensures cloud.trail == old(cloud.trail) + [cloud.Here()]
      ensures cloud.route53 == old(cloud.route53) || Some(cloud.route53) == Changed(old(cloud.route53), zoneId, changes)
      ensures r.Ok? ==> Some(cloud.route53) == Changed(old(cloud.route53), zoneId, changes)
      ensures cloud.reliable && Changed(old(cloud.route53), zoneId, changes).Some? ==> r.Ok?
      ensures old(ZoneIdsExact()) ==> ZoneIdsExact()
    {
      hide ApplyAll;
      ghost var st, trail := cloud.route53, cloud.trail;
      r := cloud.ChangeRecordSets(zoneId, changes);
      Settle(st, trail);
      if cloud.route53 != st && Exact(zoneIds, account, st, cloud.now) {
        RecordsKeepExact(zoneIds, account, st, zoneId, cloud.route53.zones[zoneId].sets, cloud.now);
      }
    }

    method AddDelegationToParentZone(parentZoneId: string, record: DnsRecord) returns (r: Result<()>)
      requires Valid()
      modifies this`upserts, cloud`route53, cloud`trail
      ensures Valid()
      ensures Passed(old(cloud.trail), cloud.trail, old(cloud.Here()), cloud.Here())
      ensures record.values == [] ==> r.Err? && Seen() == old(Seen())
      ensures record.values != [] ==>
        UpsertStep(old(Seen()), Seen(), DelegationKey(printable, parentZoneId, record.name, record.values), parentZoneId,
                   [DelegationChange(record.name, record.values)], r.Ok?)
      ensures cloud.route53 == old(cloud.route53)
           || Some(cloud.route53) == Changed(old(cloud.route53), parentZoneId, [DelegationChange(record.name, record.values)])
      ensures cloud.reliable && record.values != [] && parentZoneId in old(cloud.route53).zones ==> r.Ok?
      ensures old(ZoneIdsExact()) ==> ZoneIdsExact()
    {
      if record.values == [] {
        return Err(Failed);
      }
      var key := DelegationKey(printable, parentZoneId, record.name, record.values);
      UpsertsGoThrough(cloud.route53, parentZoneId, [DelegationChange(record.name, record.values)]);
      r := UpsertUnlessRemembered(key, parentZoneId, [DelegationChange(record.name, record.values)]);
    }

    method AddDnsRecordsToHostedZone(zoneId: string, records: seq<DnsRecord>) returns (r: Result<()>)
      requires Valid()
      modifies this`upserts, cloud`route53, cloud`trail
      ensures Valid()
      ensures Passed(old(cloud.trail), cloud.trail, old(cloud.Here()), cloud.Here())
      ensures records == [] ==> r.Err? && Seen() == old(Seen())
      ensures records != [] && HaveValues(records) ==>
        UpsertStep(old(Seen()), Seen(), ZoneKey(printable, zoneId, records), zoneId, ChangesFor(records, canonicalZone), r.Ok?)
      ensures !HaveValues(records) ==> Seen() == old(Seen())
      ensures !HaveValues(records) && r.Ok? ==> Get(upserts, ZoneKey(printable, zoneId, records), cloud.now).Some?
      ensures HaveValues(records) ==>
        cloud.route53 == old(cloud.route53)
        || Some(cloud.route53) == Changed(old(cloud.route53), zoneId, ChangesFor(records, canonicalZone))
      ensures
        && cloud.reliable && HaveValues(records) && ChangesFor(records, canonicalZone) != []
        && zoneId in old(cloud.route53).zones
        ==> r.Ok?
      ensures old(ZoneIdsExact()) ==> ZoneIdsExact()
    {
      hide Changed;
      hide ZoneIdsSound;
      hide NsSound;
      hide Exact;
      hide ValidState;
      if records == [] {
        return Err(Failed);
      }
      var hash := BuildHash(printable, records);
      var key := ZonePrefix(printable, zoneId) + "hash=" + hash;
      if Get(upserts, key, cloud.now).Some? {
        return Ok(());
      }
      var changes := BuildChanges(records, canonicalZone);
      if changes.Err? {
        return Err(changes.error);
      }
      ChangesForUpserts(records, canonicalZone);
      UpsertsGoThrough(cloud.route53, zoneId, changes.value);
      r := UpsertUnlessRemembered(key, zoneId, changes.value);
    }

    /** Deletes one set as it was listed. */
    method DeleteListed(zoneId: string, listed: RecordSet) returns (r: Result<()>)
      requires Valid() && zoneId in cloud.route53.zones
      requires listed.key in cloud.route53.zones[zoneId].sets && cloud.route53.zones[zoneId].sets[listed.key] == listed.data
      modifies cloud`route53, cloud`trail
      ensures Valid()
      ensures cloud.trail == old(cloud.trail) + [cloud.Here()]
      ensures AtMostRemoves(old(cloud.route53), cloud.route53, zoneId, listed.key)
      ensures r.Ok? ==>
        cloud.route53 == WithSets(old(cloud.route53), zoneId, old(cloud.route53).zones[zoneId].sets - {listed.key})
      ensures cloud.reliable && !IsApex(old(cloud.route53).zones[zoneId].name, listed.key) ==> r.Ok?
      ensures old(ZoneIdsExact()) ==> ZoneIdsExact()
    {
      hide Changed;
      OneDeletion(cloud.route53, zoneId, listed);
      r := Send(zoneId, [DeletionOf(listed)]);
    }

    /** Lists the one set at or after a key. */
    method ListOne(zoneId: string, key: Key) returns (r: Result<seq<RecordSet>>)
      requires Valid()
      modifies cloud`trail
      ensures Valid()
      ensures cloud.trail == old(cloud.trail) + [cloud.Here()]
      ensures r.Ok? ==> zoneId in cloud.route53.zones
      ensures r.Ok? ==>
        IsSetPage(cloud.order, cloud.route53.zones[zoneId].sets, FromKey(Key(Canonical(key.name), key.kind)), 1, r.value)
      ensures cloud.reliable && zoneId in cloud.route53.zones ==> r.Ok?
      ensures old(ZoneIdsExact()) ==> ZoneIdsExact()
    {
      hide Canonical;
      hide IsSetPage;
      hide ValidState;
      hide Exact;
      hide ZoneIdsSound;
      ghost var st, trail := cloud.route53, cloud.trail;
      r := cloud.ListRecordSets(zoneId, FromKey(key), 1);
      Settle(st, trail);
    }

    /** Removes exactly the set of the record's name and type, if the zone has it, and makes the next upsert of the
        zone's records be sent. */
    method DeleteDnsRecord(zoneId: string, record: DnsRecord) returns (r: Result<()>)
      requires Valid()
      modifies this`upserts, cloud`route53, cloud`trail
      ensures Valid()
      ensures Passed(old(cloud.trail), cloud.trail, old(cloud.Here()), cloud.Here())
      ensures AtMostRemoves(old(cloud.route53), cloud.route53, zoneId, StoredKey(record.name, record.kind))
      ensures r.Ok? ==> zoneId in cloud.route53.zones
      ensures r.Ok? && Recognised(record.name) ==>
        StoredKey(record.name, record.kind) !in cloud.route53.zones[zoneId].sets
      ensures !Recognised(record.name) ==> cloud.route53 == old(cloud.route53)
      ensures upserts == if r.Ok? && cloud.route53 != old(cloud.route53)
                         then Invalidated(old(upserts), ZonePrefix(printable, zoneId), cloud.now) else old(upserts)
      ensures
        && cloud.reliable && zoneId in old(cloud.route53).zones
        && !IsApex(old(cloud.route53).zones[zoneId].name, StoredKey(record.name, record.kind))
        ==> r.Ok?
      ensures old(ZoneIdsExact()) ==> ZoneIdsExact()
    {
      hide *;
      var kind := RecordType(record.kind);
      ghost var key := StoredKey(record.name, record.kind);
      StoredKeyIs(record.name, record.kind);
      cloud.HereIs();
      var page := ListOne(zoneId, Key(record.name, kind));
      cloud.HereIs();
      NothingRemoved(cloud.route53, zoneId, key);
      OneThenOne(old(cloud.trail), cloud.Here());
      if page.Err? {
        return Err(page.error);
      }
      StateIsValid();
      cloud.OrderIsSound();
      ZoneSetsAreValid(cloud.route53, zoneId);
      OneItemFindsTheSet(cloud.order, cloud.route53.zones[zoneId].sets, record.name, record.kind, page.value);
      if page.value == [] || Unescape(page.value[0].key.name) != Dotted(record.name) || page.value[0].key.kind != kind {
        return Ok(());
      }
      assert page.value[0].key == key;
      r := DeleteListed(zoneId, page.value[0]);
      cloud.HereIs();
      if r.Ok? {
        Gone(old(cloud.route53), cloud.route53, zoneId, page.value[0].key);
        ForgetUpserts(zoneId);
      }
    }

    method ForgetUpserts(zoneId: string)
      requires Valid()
      modifies this`upserts
      ensures Valid() && upserts == Invalidated(old(upserts), ZonePrefix(printable, zoneId), cloud.now)
      ensures old(ZoneIdsExact()) ==> ZoneIdsExact()
    {
      hide ZoneIdsSound;
      hide NsSound;
      hide Exact;
      hide ValidState;
      upserts := Invalidate(upserts, ZonePrefix(printable, zoneId), cloud.now);
    }

    /** Deletes what the first page of the zone shows, except NS and SOA sets. */
    method DeleteDnsRecordsFromHostedZone(zoneId: string) returns (r: Result<()>, ghost page: seq<RecordSet>)
      requires Valid()
      modifies cloud`route53, cloud`trail
      ensures Valid()
      ensures Passed(old(cloud.trail), cloud.trail, old(cloud.Here()), cloud.Here())
      ensures zoneId in old(cloud.route53).zones && (r.Ok? || cloud.route53 != old(cloud.route53)) ==>
        IsSetPage(cloud.order, old(cloud.route53).zones[zoneId].sets, Beginning, cloud.pageSize, page)
      ensures cloud.route53 == old(cloud.route53) || Emptied(old(cloud.route53), cloud.route53, zoneId, page)
      ensures r.Ok? ==> Emptied(old(cloud.route53), cloud.route53, zoneId, page)
      ensures cloud.reliable && zoneId in old(cloud.route53).zones ==> r.Ok?
      ensures old(ZoneIdsExact()) ==> ZoneIdsExact()
    {
      hide ZoneIdsSound;
      hide NsSound;
      hide Exact;
      hide ValidState;
      hide IsSetPage;
      hide Emptied;
      page := [];
      var listed := ListFirstPage(zoneId);
      if listed.Err? {
        return Err(listed.error), page;
      }
      page := listed.value;
      r := DeleteShown(zoneId, listed.value);
    }

    method ListFirstPage(zoneId: string) returns (r: Result<seq<RecordSet>>)
      requires Valid()
      modifies cloud`trail
      ensures Valid()
      ensures cloud.trail == old(cloud.trail) + [cloud.Here()]
      ensures r.Ok? ==> zoneId in cloud.route53.zones
      ensures r.Ok? ==> IsSetPage(cloud.order, cloud.route53.zones[zoneId].sets, Beginning, cloud.pageSize, r.value)
      ensures cloud.reliable && zoneId in cloud.route53.zones ==> r.Ok?
    {
      ghost var st, trail := cloud.route53, cloud.trail;
      r := cloud.ListRecordSets(zoneId, Beginning, cloud.pageSize);
      Settle(st, trail);
    }

    method DeleteShown(zoneId: string, page: seq<RecordSet>) returns (r: Result<()>)
      requires Valid() && zoneId in cloud.route53.zones
      requires IsSetPage(cloud.order, cloud.route53.zones[zoneId].sets, Beginning, cloud.pageSize, page)
      modifies cloud`route53, cloud`trail
      ensures Valid()
      ensures Passed(old(cloud.trail), cloud.trail, old(cloud.Here()), cloud.Here())
      ensures cloud.route53 == old(cloud.route53) || Emptied(old(cloud.route53), cloud.route53, zoneId, page)
      ensures r.Ok? ==> Emptied(old(cloud.route53), cloud.route53, zoneId, page)
      ensures cloud.reliable ==> r.Ok?
      ensures old(ZoneIdsExact()) ==> ZoneIdsExact()
    {
      hide Changed;
      hide IsSetPage;
      hide Emptied;
      hide Deletions.Deletions;
      hide ZoneIdsSound;
      hide NsSound;
      hide Exact;
      hide ValidState;
      PageIsPresent(cloud.order, cloud.route53.zones[zoneId].sets, Beginning, cloud.pageSize, page);
      PassApplies(cloud.route53, zoneId, page);
      var changes := DeletionsOf(page);
      if changes != [] {
        r := Send(zoneId, changes);
      } else {
        r := Ok(());
      }
    }

    /** Deletes the delegation if it names these name servers; a missing one is no error, another one is. */
    method DeleteDelegationFromParentZone(parentZoneId: string, record: DnsRecord) returns (r: Result<()>)
      requires Valid()
      modifies cloud`route53, cloud`trail
      ensures Valid()
      ensures Passed(old(cloud.trail), cloud.trail, old(cloud.Here()), cloud.Here())
      ensures AtMostRemoves(old(cloud.route53), cloud.route53, parentZoneId, StoredKey(record.name, NS))
      ensures cloud.route53 != old(cloud.route53) ==>
        SameServers(old(cloud.route53).zones[parentZoneId].sets[StoredKey(record.name, NS)], record.values)
      ensures r.Ok? ==> parentZoneId in cloud.route53.zones
      ensures r.Ok? && '*' !in record.name ==>
        StoredKey(record.name, NS) !in cloud.route53.zones[parentZoneId].sets
      ensures
        && cloud.reliable && parentZoneId in old(cloud.route53).zones
        && !IsApex(old(cloud.route53).zones[parentZoneId].name, StoredKey(record.name, NS))
        && (StoredKey(record.name, NS) in old(cloud.route53).zones[parentZoneId].sets ==>
              SameServers(old(cloud.route53).zones[parentZoneId].sets[StoredKey(record.name, NS)], record.values))
        ==> r.Ok?
      ensures old(ZoneIdsExact()) ==> ZoneIdsExact()
    {
      hide Canonical;
      hide SameServerNames;
      hide ZoneIdsSound;
      hide NsSound;
      hide Exact;
      hide ValidState;
      hide IsSetPage;
      hide NormalizeDnsName;
      var page := ListOne(parentZoneId, Key(record.name, NS));
      if page.Err? {
        return Err(page.error);
      }
      OneItemFindsDelegation(cloud.order, cloud.route53, parentZoneId, record.name, page.value);
      if page.value == [] || NormalizeDnsName(page.value[0].key.name) != NormalizeDnsName(record.name)
         || page.value[0].key.kind != NS {
        return Ok(());
      }
      var same := HaveSameDnsNames(ServersOf(page.value[0].data), record.values);
      SameServersMeans(page.value[0].data, record.values);
      if !same {
        return Err(Failed);
      }
      r := DeleteListed(parentZoneId, page.value[0]);
      if r.Ok? {
        Gone(old(cloud.route53), cloud.route53, parentZoneId, page.value[0].key);
      }
    }
  }

  function NsRecordSet(record: DnsRecord, ttl: nat): RecordSet {
    RecordSet(Key(record.name, record.kind), Values(ttl, record.values))
  }

  /** Nothing is cached, no zone has the name, and AWS accepts it: a zone is to be created. */
  ghost predicate WillCreate(cached: Option<string>, st: State, account: string, name: string) {
    cached.None? && NoZone(st, account, name) && Stored(Canonical(name))
  }

  /** An existing zone is cached, or it is the only one of the name. */
  ghost predicate WillFind(cached: Option<string>, st: State, account: string, name: string) {
    if cached.Some? then cached.value in st.zones else exists id :: OnlyZone(st, account, id, name)
  }

  lemma AnswerIsOnly(st: State, account: string, name: string, r: Result<string>)
    requires Answers(st, account, name, r) && r.Ok?
    ensures OnlyZone(st, account, r.value, name)
  {
  }

  lemma FoundAnswer(st: State, account: string, name: string, r: Result<string>)
    requires Answers(st, account, name, r) && exists id :: OnlyZone(st, account, id, name)
    ensures r.Ok? && r.value in st.zones
  {
  }

  lemma NoneAnswer(st: State, account: string, name: string, r: Result<string>)
    requires Answers(st, account, name, r) && NoZone(st, account, name)
    ensures r == Err(ZoneNotFound)
  {
    hide Named;
  }

  /** The caller asks with the zone's own name, and nobody has changed the zone's own NS set. */
  ghost predicate AsksOwn(st: State, account: string, zoneId: string, zoneName: string) {
    KnownAs(st.born, account, zoneId, zoneName) && ApexIntact(st, zoneId)
  }

  lemma OnlyOne(page: seq<RecordSet>, i: nat, o: Order, sets: Sets, start: Start)
    requires i < |page| && IsSetPage(o, sets, start, 1, page)
    ensures |page| == 1 && i == 0
  {
  }

  function ServersOf(data: Data): seq<string> {
    match data
    case Values(_, values) => values
    case AliasTo(_, _) => []
  }

  /** The set names the same servers as the list. */
  ghost predicate SameServers(data: Data, values: seq<string>) {
    match data
    case Values(_, servers) => SameServerNames(servers, values)
    case AliasTo(_, _) => values == []
  }

  lemma SameServersMeans(data: Data, values: seq<string>)
    ensures SameServers(data, values) <==> SameServerNames(ServersOf(data), values)
  {
    if data.AliasTo? && values == [] {
      EveryListIsItsOwn(values);
    }
  }

  lemma StoredKeyIs(name: string, kind: string)
    ensures StoredKey(name, kind) == Key(Canonical(name), RecordType(kind))
    ensures Recognised(name) <==> Unescape(Canonical(name)) == Dotted(name)
  {
    hide Canonical;
  }

  /** Upserts are never refused by an existing zone. */
  lemma UpsertsGoThrough(st: State, id: string, changes: seq<Change>)
    requires OnlyUpserts(changes)
    ensures id in st.zones && changes != [] ==> Changed(st, id, changes).Some?
  {
    if id in st.zones {
      UpsertsApply(st.zones[id].name, st.zones[id].sets, changes);
    }
  }

  lemma NothingRemoved(st: State, id: string, key: Key)
    ensures AtMostRemoves(st, st, id, key)
  {
  }

  /** One or two calls of which only the second changed anything. */
  lemma OneThenOne(trail: seq<Moment>, before: Moment)
    ensures Passed(trail, trail + [before], before, before)
    ensures forall after :: Passed(trail, (trail + [before]) + [after], before, after)
  {
  }

  lemma ZoneSetsAreValid(st: State, id: string)
    requires ValidState(st) && id in st.zones
    ensures ValidSets(st.zones[id].sets)
  {
    assert ValidZone(st, id);
  }

  lemma Gone(before: State, after: State, id: string, key: Key)
    requires id in before.zones && key in before.zones[id].sets
    requires after == WithSets(before, id, before.zones[id].sets - {key})
    ensures after != before && id in after.zones && key !in after.zones[id].sets
  {
    assert after.zones[id].sets != before.zones[id].sets;
  }

  /** The one listed item that matches is the delegation; with no asterisk in the name it matches whenever it exists. */
  lemma OneItemFindsDelegation(o: Order, st: State, id: string, name: string, page: seq<RecordSet>)
    requires Sound(o) && ValidState(st) && id in st.zones
    requires IsSetPage(o, st.zones[id].sets, FromKey(StoredKey(name, NS)), 1, page)
    ensures |page| <= 1
    ensures |page| == 1 ==> page[0].key in st.zones[id].sets && st.zones[id].sets[page[0].key] == page[0].data
    ensures StoredKey(name, NS) in st.zones[id].sets <==> |page| == 1 && page[0].key == StoredKey(name, NS)
    ensures |page| == 1 && page[0].key.kind == NS && NormalizeDnsName(page[0].key.name) == NormalizeDnsName(name) ==>
      page[0].key == StoredKey(name, NS)
    ensures |page| == 1 && page[0].key == StoredKey(name, NS) && '*' !in name ==>
      NormalizeDnsName(page[0].key.name) == NormalizeDnsName(name)
  {
    hide Canonical;
    hide NormalizeDnsName;
    assert ValidZone(st, id);
    OneItemFindsTheSet(o, st.zones[id].sets, name, NS, page);
    if |page| == 1 {
      NormalMatchIsOwn(page[0].key.name, name);
    }
  }

  /** Nothing named the zone, or exactly one living entry that did is gone. */
  ghost predicate Forgotten(cache: Cache<string>, r: Cache<string>, zoneId: string, now: nat) {
    && (forall n :: n in r ==> n in cache && r[n] == cache[n])
    && (r == cache ==> forall n :: n in cache ==> Get(cache, n, now) != Some(zoneId))
    && (r != cache ==> exists n :: Get(cache, n, now) == Some(zoneId) && r == cache - {n})
  }

  /** Of two living entries of the zone, one is left. */
  lemma OneOfTwoIsLeft(cache: Cache<string>, r: Cache<string>, zoneId: string, now: nat, a: string, b: string)
    requires Forgotten(cache, r, zoneId, now) && a != b
    requires Get(cache, a, now) == Some(zoneId) && Get(cache, b, now) == Some(zoneId)
    ensures Get(r, a, now) == Some(zoneId) || Get(r, b, now) == Some(zoneId)
  {
    if r != cache {
      var n :| Get(cache, n, now) == Some(zoneId) && r == cache - {n};
      assert a != n ==> a in r;
      assert b != n ==> b in r;
    }
  }

  /** Forgets the first living entry that names the zone, in whatever order the entries come. */
  method Forget(cache: Cache<string>, zoneId: string, now: nat) returns (r: Cache<string>)
    ensures Forgotten(cache, r, zoneId, now)
  {
    r := cache;
    var left := cache.Keys;
    while left != {}
      invariant r == cache && left <= cache.Keys
      invariant forall n :: n in cache && n !in left ==> Get(cache, n, now) != Some(zoneId)
      decreases left
    {
      var n :| n in left;
      left := left - {n};
      if Get(cache, n, now) == Some(zoneId) {
        r := cache - {n};
        assert n !in r;
        break;
      }
    }
  }

  lemma FewerEntriesAreSound(cache: Cache<string>, r: Cache<string>, account: string, now: nat, st: State,
                             trail: seq<Moment>)
    requires ZoneIdsSound(cache, account, st, now, trail)
    requires forall n :: n in r ==> n in cache && r[n] == cache[n]
    ensures ZoneIdsSound(r, account, st, now, trail)
    ensures Exact(cache, account, st, now) ==> Exact(r, account, st, now)
  {
    hide Canonical;
    forall n | n in r ensures SeenAt(trail, r[n].expires - ZONE_TTL, account, r[n].value, n) {
      assert SeenAt(trail, cache[n].expires - ZONE_TTL, account, cache[n].value, n);
    }
  }

  /** Under a single writer, forgetting one name forgets the zone. */
  lemma ForgettingIsEnough(cache: Cache<string>, r: Cache<string>, account: string, zoneId: string, now: nat, st: State)
    requires Exact(cache, account, st, now)
    requires Forgotten(cache, r, zoneId, now)
    ensures forall n :: n in r && now <= r[n].expires ==> r[n].value != zoneId
    ensures Exact(r, account, WithoutZone(st, zoneId), now)
  {
    forall n | n in r && now <= r[n].expires ensures r[n].value != zoneId && EntryExact(st, account, n, r[n].value) {
      assert EntryExact(st, account, n, cache[n].value);
      if r != cache {
        var gone :| Get(cache, gone, now) == Some(zoneId) && r == cache - {gone};
        if r[n].value == zoneId {
          NoTwoNamesShareAnId(cache, account, st, now, n, gone);
        }
      }
    }
  }

  /** Nobody has the stored form of a bare name that no lookup finds. */
  lemma BareIsFree(st: State, account: string, name: string)
    requires ValidState(st) && NoZone(st, account, name) && Bare(name)
    ensures forall id :: id in st.zones && st.zones[id].account == account ==> st.zones[id].name != Canonical(name)
  {
    forall id | id in st.zones && st.zones[id].account == account ensures st.zones[id].name != Canonical(name) {
      assert ValidZone(st, id) && !Named(st, account, id, name);
    }
  }

  lemma CreatingKeepsUnique(st: State, account: string, name: string, id: string, nameServers: seq<string>)
    requires ValidState(st) && id !in st.born && UniqueNames(st, account)
    requires forall other :: other in st.zones && st.zones[other].account == account ==> st.zones[other].name != name
    ensures UniqueNames(Created(st, id, account, name, nameServers), account)
  {
    assert forall other :: other in st.zones ==> ValidZone(st, other) && other != id;
  }

  /** A new zone whose name nobody has leaves every living entry exact. */
  lemma CreatingKeepsExact(cache: Cache<string>, account: string, st: State, now: nat, name: string, id: string,
                           nameServers: seq<string>)
    requires ValidState(st) && id !in st.born && NoZone(st, account, name)
    ensures
      Exact(cache, account, st, now) && Bare(name) ==>
        Exact(cache, account, Created(st, id, account, Canonical(name), nameServers), now)
  {
    hide Canonical;
    if Exact(cache, account, st, now) && Bare(name) {
      BareIsFree(st, account, name);
      CreatingKeepsUnique(st, account, Canonical(name), id, nameServers);
      assert forall other :: other in st.zones ==> ValidZone(st, other) && other != id;
    }
  }

  lemma NoneAnswers(st: State, account: string, name: string)
    requires NoZone(st, account, name)
    ensures Answers(st, account, name, Err(ZoneNotFound))
  {
  }

  lemma OneAnswers(st: State, account: string, name: string, id: string)
    requires OnlyZone(st, account, id, name)
    ensures Answers(st, account, name, Ok(id))
  {
  }

  /** What the search through the page found is the answer of the whole account. */
  lemma PageAnswers(o: Order, st: State, account: string, name: string, page: seq<Key>, found: Result<string>)
    requires Sound(o) && ValidState(st)
    requires IsPage(o, ZoneKeys(st, account), FromName(Canonical(name)), MAX_ZONES, page)
    requires Found(page, Dotted(name), found)
    ensures found.Ok? && found.value == "" ==> NoZone(st, account, name)
    ensures found.Ok? && found.value != "" ==> OnlyZone(st, account, found.value, name)
    ensures found.Ok? && found.value != "" ==> KnownAs(st.born, account, found.value, name)
    ensures found.Err? ==> Answers(st, account, name, Err(Failed))
  {
    if found.Err? {
      var i: nat, j: nat :| i < j < |page| && page[i].name == page[j].name == Dotted(name);
      TwiceOnPage(o, st, account, name, page, i, j);
    } else if found.value == "" {
      AbsentFromPage(o, st, account, name, page);
    } else {
      var at: nat :| at < |page| && found.value == SanitizeZoneId(page[at].kind)
        && forall i :: 0 <= i < |page| ==> (page[i].name == Dotted(name) <==> i == at);
      OnceOnPage(o, st, account, name, page, at);
      ListedZone(st, account, page[at]);
      WantedIsCanonical(page[at].name, name);
    }
  }
}
