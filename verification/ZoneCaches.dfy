/** What the Route 53 client's caches may claim, stated on their contents. */
module ZoneCaches {
  import opened Results
  import opened Strings
  import opened Listing
  import opened Cloud

  const UPSERT_TTL := 120
  const NS_TTL := 300
  const ZONE_TTL := 90

  /** The listing of zones asks for as many as AWS allows. */
  const MAX_ZONES := 100

  datatype Item<T> = Item(value: T, expires: nat)

  type Cache<T> = map<string, Item<T>>

  function Get<T>(cache: Cache<T>, key: string, now: nat): Option<T> {
    if key in cache && now <= cache[key].expires then Some(cache[key].value) else None
  }

  function SetDefault<T>(cache: Cache<T>, key: string, value: T, now: nat, ttl: nat): Cache<T> {
    cache[key := Item(value, now + ttl)]
  }

  /** The zone id once named a zone of that name in the account. */
  predicate KnownAs(born: map<string, Birth>, account: string, id: string, name: string) {
    id in born && born[id].account == account && born[id].name == Canonical(name)
  }

  ghost predicate ZoneIdsTruthful(cache: Cache<string>, account: string, born: map<string, Birth>) {
    forall n :: n in cache ==> KnownAs(born, account, cache[n].value, n)
  }

  predicate IsNsOf(record: RecordSet, birth: Birth) {
    record == RecordSet(Key(birth.name, NS), Values(APEX_TTL, birth.nameServers))
  }

  ghost predicate NsTruthful(cache: Cache<RecordSet>, born: map<string, Birth>) {
    forall id :: id in cache ==> id in born && IsNsOf(cache[id].value, born[id])
  }

  /** An NS set with at least one server. */
  predicate IsNsSet(record: RecordSet) {
    record.key.kind == NS && record.data.Values? && record.data.values != []
  }

  /** At that moment the zone had that record set. */
  predicate Had(m: Moment, id: string, record: RecordSet) {
    && id in m.route53.zones && record.key in m.route53.zones[id].sets
    && m.route53.zones[id].sets[record.key] == record.data
  }

  ghost predicate HadAt(trail: seq<Moment>, time: int, id: string, record: RecordSet) {
    exists i :: 0 <= i < |trail| && trail[i].time == time && Had(trail[i], id, record)
  }

  /** Every cached NS set was the zone's at a moment one lifetime before the entry expires. */
  ghost predicate NsSound(cache: Cache<RecordSet>, now: nat, trail: seq<Moment>) {
    && Honest(cache, now, NS_TTL)
    && forall id :: id in cache ==> IsNsSet(cache[id].value) && HadAt(trail, cache[id].expires - NS_TTL, id, cache[id].value)
  }

  /** The zone had that NS set at some moment no longer ago than the cache keeps it. */
  ghost predicate HadRecently(trail: seq<Moment>, now: nat, id: string, record: RecordSet) {
    exists time :: now - 300 <= time <= now && HadAt(trail, time, id, record)
  }

  lemma NsHitIsRecent(cache: Cache<RecordSet>, now: nat, trail: seq<Moment>, id: string)
    requires NsSound(cache, now, trail) && Get(cache, id, now).Some?
    ensures IsNsSet(cache[id].value) && HadRecently(trail, now, id, cache[id].value)
  {
    assert HadAt(trail, cache[id].expires - NS_TTL, id, cache[id].value);
  }

  lemma CachingNsIsSound(cache: Cache<RecordSet>, now: nat, trail: seq<Moment>, id: string, record: RecordSet)
    requires NsSound(cache, now, trail) && IsNsSet(record) && |trail| > 0
    requires trail[|trail| - 1].time == now && Had(trail[|trail| - 1], id, record)
    ensures NsSound(SetDefault(cache, id, record, now, NS_TTL), now, trail) && HadRecently(trail, now, id, record)
  {
    assert HadAt(trail, now, id, record);
    var after := SetDefault(cache, id, record, now, NS_TTL);
    forall k | k in after
      ensures IsNsSet(after[k].value) && HadAt(trail, after[k].expires - NS_TTL, k, after[k].value)
    {
      if k != id {
        assert HadAt(trail, cache[k].expires - NS_TTL, k, cache[k].value);
      }
    }
  }

  lemma NsSurvives(cache: Cache<RecordSet>, now: nat, then_: nat, trail: seq<Moment>, longer: seq<Moment>)
    requires NsSound(cache, now, trail) && now <= then_ && trail <= longer
    ensures NsSound(cache, then_, longer)
  {
    forall id | id in cache ensures HadAt(longer, cache[id].expires - NS_TTL, id, cache[id].value) {
      assert HadAt(trail, cache[id].expires - NS_TTL, id, cache[id].value);
      var i :| 0 <= i < |trail| && trail[i].time == cache[id].expires - NS_TTL && Had(trail[i], id, cache[id].value);
      assert longer[i] == trail[i];
    }
  }

  /** At that moment the id named an existing zone of that name. */
  predicate Saw(m: Moment, account: string, id: string, name: string) {
    id in m.route53.zones && m.route53.zones[id].account == account && m.route53.zones[id].name == Canonical(name)
  }

  ghost predicate SeenAt(trail: seq<Moment>, time: int, account: string, id: string, name: string) {
    exists i :: 0 <= i < |trail| && trail[i].time == time && Saw(trail[i], account, id, name)
  }

  /** Every entry goes back to a moment one lifetime before it expires. */
  ghost predicate Witnessed(cache: Cache<string>, account: string, trail: seq<Moment>) {
    forall n :: n in cache ==> SeenAt(trail, cache[n].expires - ZONE_TTL, account, cache[n].value, n)
  }

  /** Everything the zone id cache claims. */
  ghost predicate ZoneIdsSound(cache: Cache<string>, account: string, st: State, now: nat, trail: seq<Moment>) {
    && ZoneIdsTruthful(cache, account, st.born) && Witnessed(cache, account, trail) && Honest(cache, now, ZONE_TTL)
  }

  /** The answer was true at some moment no longer ago than the cache keeps it. */
  ghost predicate Recent(trail: seq<Moment>, now: nat, account: string, id: string, name: string) {
    exists time :: now - 90 <= time <= now && SeenAt(trail, time, account, id, name)
  }

  lemma HitIsRecent(cache: Cache<string>, account: string, trail: seq<Moment>, now: nat, name: string)
    requires Witnessed(cache, account, trail) && Honest(cache, now, ZONE_TTL) && Get(cache, name, now).Some?
    ensures Recent(trail, now, account, Get(cache, name, now).value, name)
  {
    assert SeenAt(trail, cache[name].expires - ZONE_TTL, account, cache[name].value, name);
  }

  lemma ListedIsRecent(st: State, account: string, trail: seq<Moment>, now: nat, id: string, name: string)
    requires ValidState(st) && Named(st, account, id, name)
    requires |trail| > 0 && trail[|trail| - 1].route53 == st && trail[|trail| - 1].time == now
    ensures Recent(trail, now, account, id, name)
  {
    assert ValidZone(st, id);
    WantedIsCanonical(st.zones[id].name, name);
    assert Saw(trail[|trail| - 1], account, id, name);
    assert SeenAt(trail, now, account, id, name);
  }

  /** No entry lives longer than its lifetime from now. */
  ghost predicate Honest<T>(cache: Cache<T>, now: nat, ttl: nat) {
    forall k :: k in cache ==> cache[k].expires <= now + ttl
  }

  // ---- the uncached lookup ----

  predicate Named(st: State, account: string, id: string, name: string) {
    id in st.zones && st.zones[id].account == account && st.zones[id].name == Dotted(name)
  }

  ghost predicate NoZone(st: State, account: string, name: string) {
    forall id :: !Named(st, account, id, name)
  }

  ghost predicate OnlyZone(st: State, account: string, id: string, name: string) {
    Named(st, account, id, name) && forall other :: Named(st, account, other, name) ==> other == id
  }

  /** What a lookup answers: the one zone of that name, or that there is none, or an error when there are several. */
  ghost predicate Answers(st: State, account: string, name: string, r: Result<string>) {
    match r
    case Ok(id) => OnlyZone(st, account, id, name)
    case Err(ZoneNotFound) => NoZone(st, account, name)
    case Err(_) => exists a, b :: a != b && Named(st, account, a, name) && Named(st, account, b, name)
  }

  lemma AnswerIsUnique(st: State, account: string, name: string, r: Result<string>, q: Result<string>)
    requires Answers(st, account, name, r) && Answers(st, account, name, q)
    ensures r == q || (r.Err? && q.Err? && r.error != ZoneNotFound && q.error != ZoneNotFound)
  {
  }

  // ---- exactness under a single writer ----

  ghost predicate UniqueNames(st: State, account: string) {
    forall a, b ::
      && a in st.zones && b in st.zones
      && st.zones[a].account == account && st.zones[b].account == account
      && st.zones[a].name == st.zones[b].name
      ==> a == b
  }

  predicate EntryExact(st: State, account: string, name: string, id: string) {
    id in st.zones && st.zones[id].account == account && name == TrimDot(st.zones[id].name)
  }

  /** A name as the listing caches it: the stored form without its final dot. */
  predicate Bare(name: string) {
    name == TrimDot(Canonical(name))
  }

  /** Ids are cached only under names as Route 53 stores them, up to the final dot. */
  ghost predicate PlainKeys(cache: Cache<string>) {
    forall k :: k in cache ==> Plain(k)
  }

  lemma ExactIsPlain(st: State, account: string, name: string, id: string)
    requires ValidState(st) && EntryExact(st, account, name, id)
    ensures Plain(name)
  {
    assert ValidZone(st, id);
    StoredNameTrims(st.zones[id].name);
  }

  /** A lookup of any other name finds nothing in the listing. */
  lemma NamedIsPlain(st: State, account: string, id: string, name: string)
    requires ValidState(st) && Named(st, account, id, name)
    ensures Plain(name)
  {
    assert ValidZone(st, id);
    WantedIsCanonical(st.zones[id].name, name);
  }

  /** Every living entry names the zone that exists, under the key without a final dot. */
  ghost predicate Exact(cache: Cache<string>, account: string, st: State, now: nat) {
    && UniqueNames(st, account)
    && forall n :: n in cache && now <= cache[n].expires ==> EntryExact(st, account, n, cache[n].value)
  }

  /** Under a single writer no two names share an id, so deleting one entry is enough. */
  lemma NoTwoNamesShareAnId(cache: Cache<string>, account: string, st: State, now: nat, a: string, b: string)
    requires Exact(cache, account, st, now)
    requires Get(cache, a, now).Some? && Get(cache, a, now) == Get(cache, b, now)
    ensures a == b
  {
    assert EntryExact(st, account, a, cache[a].value) && EntryExact(st, account, b, cache[b].value);
  }

  lemma StoredNameTrims(name: string)
    requires Stored(name)
    ensures Canonical(TrimDot(name)) == name
  {
  }

  lemma DottedTwice(name: string)
    ensures Dotted(Dotted(name)) == Dotted(name)
    ensures Canonical(Dotted(name)) == Canonical(name)
  {
    assert TrimDot(Dotted(name)) == TrimDot(name);
  }

  /** A zone whose stored name is what the caller wrote is a zone of that name. */
  lemma WantedIsCanonical(wanted: string, name: string)
    requires Stored(wanted) && wanted == Dotted(name)
    ensures wanted == Canonical(name)
  {
    DottedTwice(name);
  }

  /** One item of a zone listing. */
  lemma ListedZone(st: State, account: string, key: Key)
    requires ValidState(st) && key in ZoneKeys(st, account)
    ensures
      var id := SanitizeZoneId(key.kind);
      && id != "" && id in st.zones && st.zones[id].account == account && st.zones[id].name == key.name
      && key.kind == RawId(id) && Stored(key.name)
      && id in st.born && st.born[id].account == account && st.born[id].name == key.name
  {
    var id :| id in st.zones && st.zones[id].account == account && key == Key(st.zones[id].name, RawId(id));
    SanitizeRawId(id);
    assert ValidZone(st, id);
  }

  lemma ZoneIsListed(st: State, account: string, name: string, id: string)
    requires ValidState(st) && Named(st, account, id, name)
    ensures Key(Canonical(name), RawId(id)) in ZoneKeys(st, account)
    ensures Canonical(name) == Dotted(name)
  {
    assert ValidZone(st, id);
    WantedIsCanonical(st.zones[id].name, name);
  }

  lemma ZoneIsShown(o: Order, st: State, account: string, name: string, page: seq<Key>, id: string)
    requires Sound(o) && ValidState(st) && Named(st, account, id, name)
    requires IsPage(o, ZoneKeys(st, account), FromName(Canonical(name)), MAX_ZONES, page)
    ensures exists i :: 0 <= i < |page| && page[i].name == Dotted(name)
    ensures Key(Dotted(name), RawId(id)) in page
         || (|page| == MAX_ZONES && forall i :: 0 <= i < |page| ==> page[i].name == Dotted(name))
  {
    ZoneIsListed(st, account, name, id);
    var k := Key(Canonical(name), RawId(id));
    NameComesFirst(o, ZoneKeys(st, account), Canonical(name), MAX_ZONES, page, k);
    if k in page {
      var i :| 0 <= i < |page| && page[i] == k;
    } else {
      assert page[0].name == Dotted(name);
    }
  }

  /** A page that does not show the wanted name proves that no zone has it. */
  lemma AbsentFromPage(o: Order, st: State, account: string, name: string, page: seq<Key>)
    requires Sound(o) && ValidState(st)
    requires IsPage(o, ZoneKeys(st, account), FromName(Canonical(name)), MAX_ZONES, page)
    requires forall i :: 0 <= i < |page| ==> page[i].name != Dotted(name)
    ensures NoZone(st, account, name)
  {
    forall id ensures !Named(st, account, id, name) {
      if Named(st, account, id, name) {
        ZoneIsShown(o, st, account, name, page, id);
      }
    }
  }

  lemma PageHolds(o: Order, st: State, account: string, name: string, page: seq<Key>)
    requires IsPage(o, ZoneKeys(st, account), FromName(Canonical(name)), MAX_ZONES, page)
    ensures forall i :: 0 <= i < |page| ==> page[i] in ZoneKeys(st, account)
  {
  }

  /** A page that shows it once shows the only zone of that name. */
  lemma OnceOnPage(o: Order, st: State, account: string, name: string, page: seq<Key>, at: nat)
    requires Sound(o) && ValidState(st) && at < |page|
    requires IsPage(o, ZoneKeys(st, account), FromName(Canonical(name)), MAX_ZONES, page)
    requires forall i :: 0 <= i < |page| ==> (page[i].name == Dotted(name) <==> i == at)
    ensures OnlyZone(st, account, SanitizeZoneId(page[at].kind), name)
  {
    hide Canonical;
    hide IsPage;
    PageHolds(o, st, account, name, page);
    ListedZone(st, account, page[at]);
    forall other | Named(st, account, other, name) ensures other == SanitizeZoneId(page[at].kind) {
      ZoneIsShown(o, st, account, name, page, other);
      assert !(page[0].name == Dotted(name) && |page| > 1 && page[1].name == Dotted(name));
      SanitizeRawId(other);
    }
  }

  lemma TwiceOnPage(o: Order, st: State, account: string, name: string, page: seq<Key>, i: nat, j: nat)
    requires Sound(o) && ValidState(st) && i < j < |page|
    requires IsPage(o, ZoneKeys(st, account), FromName(Canonical(name)), MAX_ZONES, page)
    requires page[i].name == page[j].name == Dotted(name)
    ensures Answers(st, account, name, Err(Failed))
  {
    ListedZone(st, account, page[i]);
    ListedZone(st, account, page[j]);
    PageHasNoDuplicates(o, ZoneKeys(st, account), FromName(Canonical(name)), MAX_ZONES, page, i, j);
    var a, b := SanitizeZoneId(page[i].kind), SanitizeZoneId(page[j].kind);
    assert Named(st, account, a, name) && Named(st, account, b, name) && a != b;
  }

  /** Under a single writer a cached answer is the uncached one. */
  lemma CachedAnswers(cache: Cache<string>, account: string, st: State, now: nat, name: string)
    requires ValidState(st) && Exact(cache, account, st, now) && Get(cache, name, now).Some?
    ensures Answers(st, account, name, Ok(Get(cache, name, now).value))
  {
    var id := cache[name].value;
    assert EntryExact(st, account, name, id) && ValidZone(st, id);
    assert Named(st, account, id, name);
  }

  /** Ids are never reused, and what a zone was born as does not change. */
  ghost predicate Later(st: State, later: State) {
    forall id :: id in st.born ==> id in later.born && later.born[id] == st.born[id]
  }

  /** The caches stay sound whatever else happens. */
  lemma CachesSurvive(cache: Cache<string>, ns: Cache<RecordSet>, account: string, st: State, later: State,
                      now: nat, then_: nat, trail: seq<Moment>, longer: seq<Moment>)
    requires ZoneIdsSound(cache, account, st, now, trail) && NsSound(ns, now, trail)
    requires Later(st, later) && now <= then_ && trail <= longer
    ensures ZoneIdsSound(cache, account, later, then_, longer) && NsSound(ns, then_, longer)
  {
    NsSurvives(ns, now, then_, trail, longer);
    hide NsSound;
    forall n | n in cache ensures SeenAt(longer, cache[n].expires - ZONE_TTL, account, cache[n].value, n) {
      var i :| 0 <= i < |trail| && trail[i].time == cache[n].expires - ZONE_TTL && Saw(trail[i], account, cache[n].value, n);
      assert longer[i] == trail[i];
    }
  }

  /** What a zone was born with does not change, so the cached NS sets of untouched zones stay right. */
  lemma OwnNsSurvives(ns: Cache<RecordSet>, st: State, later: State)
    requires NsTruthful(ns, st.born) && Later(st, later)
    ensures NsTruthful(ns, later.born)
  {
  }

  /** Every moment recorded since shows the world as it was or as it is. */
  ghost predicate Passed(trail: seq<Moment>, longer: seq<Moment>, before: Moment, after: Moment) {
    trail <= longer && forall i :: |trail| <= i < |longer| ==> longer[i] == before || longer[i] == after
  }

  /** Zones keep what they are called, whatever happens to their record sets. */
  lemma RecordsKeepExact(cache: Cache<string>, account: string, st: State, id: string, sets: Sets, now: nat)
    requires id in st.zones && Exact(cache, account, st, now)
    ensures Exact(cache, account, WithSets(st, id, sets), now)
  {
    var after := WithSets(st, id, sets);
    forall n | n in cache && now <= cache[n].expires ensures EntryExact(after, account, n, cache[n].value) {
      assert EntryExact(st, account, n, cache[n].value);
    }
  }

  // ---- the record set caches ----

  /** Entries of a zone that still live are dropped; those that have expired are not visited. */
  function Invalidated(cache: Cache<bool>, prefix: string, now: nat): Cache<bool> {
    map k | k in cache && !(prefix <= k && now <= cache[k].expires) :: cache[k]
  }

  method Invalidate(cache: Cache<bool>, prefix: string, now: nat) returns (r: Cache<bool>)
    ensures r == Invalidated(cache, prefix, now)
  {
    r := cache;
    var left := set k | k in cache && now <= cache[k].expires;
    while left != {}
      invariant forall k :: k in r ==> k in cache && r[k] == cache[k]
      invariant forall k :: k in cache ==> (k in r <==> !(prefix <= k && now <= cache[k].expires) || k in left)
      decreases left
    {
      var k :| k in left;
      left := left - {k};
      if prefix <= k {
        r := r - {k};
      }
    }
  }

  /** Some record set has the name, as Route 53 stores names. */
  predicate HasName(sets: Sets, name: string) {
    exists k :: k in sets && k.name == Canonical(name)
  }

  /** The client's own test: the name as the caller wrote it, with a final dot. */
  predicate Shown(sets: Sets, name: string) {
    exists k :: k in sets && k.name == Dotted(name)
  }

  /** The client sees a record set of that name if and only if there is one and the name is written as it is stored. */
  lemma ShownIff(sets: Sets, name: string)
    requires ValidSets(sets)
    ensures Shown(sets, name) <==> Plain(name) && HasName(sets, name)
  {
    DottedTwice(name);
    if k :| k in sets && k.name == Dotted(name) {
      assert StableName(k.name);
    }
  }

  /** An upper-case letter is enough to miss a record set that is there. */
  lemma UpperCaseIsMissed(data: Data)
    ensures
      var sets := map[Key("a.b.", A) := data];
      ValidSets(sets) && HasName(sets, "A.b") && !Shown(sets, "A.b") && Shown(sets, "a.b")
  {
    var key := Key("a.b.", A);
    assert Dotted("A.b") == "A.b." && Dotted("a.b") == "a.b." && Dotted("a.b.") == "a.b.";
    assert Lower("A.b.") == "a.b." && Lower("a.b.") == "a.b.";
    EscapeKeepsPlainText("a.b.");
    assert "A.b."[0] != "a.b."[0];
    assert key in map[key := data];
  }

  /** The one listed item shows the wanted name exactly when some record set does. */
  lemma OneItemDecidesRecord(o: Order, sets: Sets, name: string, page: seq<RecordSet>)
    requires Sound(o) && ValidSets(sets) && IsSetPage(o, sets, FromName(Canonical(name)), 1, page)
    ensures Shown(sets, name) <==> |page| == 1 && page[0].key.name == Dotted(name)
  {
    OneItemDecidesName(o, sets.Keys, Canonical(name), Keys(page));
    DottedTwice(name);
    if |page| == 1 {
      assert page[0].key in sets && Keys(page)[0] == page[0].key;
    }
    if k :| k in sets && k.name == Dotted(name) {
      assert StableName(k.name);
    }
  }

  /** A one-item listing of NS sets from a zone's own name shows its name servers. */
  lemma OneItemIsApex(o: Order, st: State, id: string, page: seq<RecordSet>)
    requires Sound(o) && id in st.zones && ApexIntact(st, id)
    requires IsSetPage(o, st.zones[id].sets, FromKey(Key(st.zones[id].name, NS)), 1, page)
    ensures page == [RecordSet(Key(st.zones[id].name, NS), Values(APEX_TTL, st.zones[id].nameServers))]
  {
    OneItemDecidesKey(o, st.zones[id].sets.Keys, Key(st.zones[id].name, NS), Keys(page));
    assert Keys(page)[0] == page[0].key;
  }
}
