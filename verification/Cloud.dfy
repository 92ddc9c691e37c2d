/**
 Everything outside the operator's process that the DNS code talks to: Route 53, the API server's objects and
 the clock. Every call may fail before it takes effect, or take effect with its response lost.
 */
module Cloud {
  import opened Results
  import opened Strings
  import opened Listing
  import ApiServer

  datatype Data = Values(ttl: nat, values: seq<string>) | AliasTo(target: string, zoneId: string)

  type Sets = map<Key, Data>

  datatype RecordSet = RecordSet(key: Key, data: Data)

  datatype Zone = Zone(account: string, name: string, nameServers: seq<string>, sets: Sets)

  /** What is fixed about a zone id from its creation on; ids are never used again. */
  datatype Birth = Birth(account: string, name: string, nameServers: seq<string>)

  datatype State = State(zones: map<string, Zone>, born: map<string, Birth>)

  datatype Moment = Moment(time: nat, route53: State, objects: map<string, ApiServer.Log>)

  datatype Action = Upsert | Delete
  datatype Change = Change(action: Action, name: string, kind: string, data: Data)

  const NS := "NS"
  const SOA := "SOA"
  const CNAME := "CNAME"
  const A := "A"
  const APEX_TTL := 172800

  const ID_PREFIX := "/hostedzone/"

  function RawId(id: string): string {
    ID_PREFIX + id
  }

  /** Zone ids come back from AWS with a path in front. */
  function SanitizeZoneId(raw: string): string {
    if ID_PREFIX <= raw then raw[|ID_PREFIX|..] else raw
  }

  lemma SanitizeRawId(id: string)
    ensures SanitizeZoneId(RawId(id)) == id
  {
  }

  predicate IsApex(zoneName: string, key: Key) {
    key.name == zoneName && (key.kind == NS || key.kind == SOA)
  }

  function KeyOf(c: Change): Key {
    Key(Canonical(c.name), c.kind)
  }

  /** A deletion must match the record set it deletes, and cannot touch the zone's own NS and SOA. */
  function ApplyChange(zoneName: string, sets: Sets, c: Change): Option<Sets> {
    var key := KeyOf(c);
    match c.action
    case Upsert => Some(sets[key := c.data])
    case Delete =>
      if key in sets && sets[key] == c.data && !IsApex(zoneName, key) then Some(sets - {key}) else None
  }

  /** A batch applies as a whole or not at all. */
  function ApplyAll(zoneName: string, sets: Sets, changes: seq<Change>): Option<Sets>
    decreases |changes|
  {
    if changes == [] then Some(sets)
    else
      match ApplyAll(zoneName, sets, changes[..|changes| - 1])
      case None => None
      case Some(before) => ApplyChange(zoneName, before, changes[|changes| - 1])
  }

  function WithSets(st: State, id: string, sets: Sets): State
    requires id in st.zones
  {
    st.(zones := st.zones[id := st.zones[id].(sets := sets)])
  }

  /** An empty batch is refused. */
  function Changed(st: State, id: string, changes: seq<Change>): Option<State> {
    if id !in st.zones || changes == [] then None
    else
      match ApplyAll(st.zones[id].name, st.zones[id].sets, changes)
      case None => None
      case Some(sets) => Some(WithSets(st, id, sets))
  }

  /** The zone's own NS set is as AWS made it. */
  ghost predicate ApexIntact(st: State, id: string) {
    id in st.zones ==>
      var z := st.zones[id];
      z.nameServers != [] && Key(z.name, NS) in z.sets && z.sets[Key(z.name, NS)] == Values(APEX_TTL, z.nameServers)
  }

  function NewZone(account: string, name: string, nameServers: seq<string>): Zone {
    Zone(account, name, nameServers,
         map[Key(name, NS) := Values(APEX_TTL, nameServers), Key(name, SOA) := Values(900, [])])
  }

  function Created(st: State, id: string, account: string, name: string, nameServers: seq<string>): State {
    State(st.zones[id := NewZone(account, name, nameServers)], st.born[id := Birth(account, name, nameServers)])
  }

  /** AWS deletes a zone only when nothing but its own NS and SOA is left. */
  predicate Deletable(z: Zone) {
    forall k :: k in z.sets ==> IsApex(z.name, k)
  }

  function WithoutZone(st: State, id: string): State {
    st.(zones := st.zones - {id})
  }

  function ZoneKeys(st: State, account: string): set<Key> {
    set id | id in st.zones && st.zones[id].account == account :: Key(st.zones[id].name, RawId(id))
  }

  function CanonicalStart(start: Start): Start {
    match start
    case Beginning => Beginning
    case FromName(name) => FromName(Canonical(name))
    case FromKey(key) => FromKey(Key(Canonical(key.name), key.kind))
  }

  predicate StableName(name: string) {
    Canonical(name) == name
  }

  /** A name in the form Route 53 stores names in, with no empty label at its end. */
  predicate Stored(name: string) {
    StableName(name) && Dotted(TrimDot(name)) == name
  }

  ghost predicate ValidSets(sets: Sets) {
    forall k :: k in sets ==> StableName(k.name)
  }

  ghost predicate ValidZone(st: State, id: string)
    requires id in st.zones
  {
    var z := st.zones[id];
    id != "" && Stored(z.name) && ValidSets(z.sets)
    && id in st.born && st.born[id] == Birth(z.account, z.name, z.nameServers)
  }

  ghost predicate ValidState(st: State) {
    forall id :: id in st.zones ==> ValidZone(st, id)
  }

  function Keys(sets: seq<RecordSet>): (r: seq<Key>)
    ensures |r| == |sets| && forall i :: 0 <= i < |r| ==> r[i] == sets[i].key
  {
    seq(|sets|, i requires 0 <= i < |sets| => sets[i].key)
  }

  /** A page of the record sets of a zone. */
  ghost predicate IsSetPage(o: Order, sets: Sets, start: Start, max: nat, page: seq<RecordSet>) {
    && IsPage(o, sets.Keys, start, max, Keys(page))
    && forall i :: 0 <= i < |page| ==> page[i].key in sets && page[i].data == sets[page[i].key]
  }

  /** The sets of a page of keys. */
  function WithData(o: Order, sets: Sets, start: Start, max: nat, keys: seq<Key>): (page: seq<RecordSet>)
    requires IsPage(o, sets.Keys, start, max, keys)
    ensures IsSetPage(o, sets, start, max, page)
  {
    assert forall i :: 0 <= i < |keys| ==> keys[i] in sets.Keys;
    var page := seq(|keys|, i requires 0 <= i < |keys| && keys[i] in sets => RecordSet(keys[i], sets[keys[i]]));
    assert Keys(page) == keys;
    page
  }

  lemma {:induction false} ApplyAllKeepsNames(zoneName: string, sets: Sets, changes: seq<Change>)
    requires ValidSets(sets)
    ensures var r := ApplyAll(zoneName, sets, changes); r.Some? ==> ValidSets(r.value)
    decreases |changes|
  {
    if changes != [] {
      var last := changes[|changes| - 1];
      ApplyAllKeepsNames(zoneName, sets, changes[..|changes| - 1]);
      CanonicalIsStable(last.name);
      assert StableName(KeyOf(last).name);
    }
  }

  lemma WithSetsKeepsValid(st: State, id: string, sets: Sets)
    requires ValidState(st) && id in st.zones && ValidSets(sets)
    ensures ValidState(WithSets(st, id, sets))
  {
    var after := WithSets(st, id, sets);
    forall other | other in after.zones ensures ValidZone(after, other) {
      assert ValidZone(st, other);
    }
  }

  lemma ChangedKeepsValid(st: State, id: string, changes: seq<Change>)
    requires ValidState(st)
    ensures var r := Changed(st, id, changes); r.Some? ==> ValidState(r.value)
  {
    if Changed(st, id, changes).Some? {
      var z := st.zones[id];
      assert ValidZone(st, id);
      ApplyAllKeepsNames(z.name, z.sets, changes);
      WithSetsKeepsValid(st, id, ApplyAll(z.name, z.sets, changes).value);
    }
  }

  lemma NewSetsAreValid(account: string, name: string, nameServers: seq<string>)
    requires StableName(name)
    ensures ValidSets(NewZone(account, name, nameServers).sets)
  {
    hide StableName;
  }

  lemma NewZoneIsSound(st: State, id: string, account: string, name: string, nameServers: seq<string>)
    requires id != "" && Stored(name)
    ensures ValidZone(Created(st, id, account, name, nameServers), id)
  {
    NewSetsAreValid(account, name, nameServers);
    hide Stored;
    hide ValidSets;
  }

  lemma OtherZonesStay(st: State, id: string, account: string, name: string, nameServers: seq<string>, other: string)
    requires other in st.zones && other != id
    ensures
      var after := Created(st, id, account, name, nameServers);
      && other in after.zones && after.zones[other] == st.zones[other]
      && (ValidZone(st, other) ==> ValidZone(after, other))
  {
    hide Stored;
    hide ValidSets;
    hide NewZone;
  }

  lemma CreatedKeepsValid(st: State, id: string, account: string, name: string, nameServers: seq<string>)
    requires ValidState(st) && id !in st.born && id != "" && Stored(name)
    ensures ValidState(Created(st, id, account, name, nameServers))
  {
    hide Stored;
    hide ValidZone;
    hide NewZone;
    var after := Created(st, id, account, name, nameServers);
    forall other | other in after.zones ensures ValidZone(after, other) {
      if other == id {
        NewZoneIsSound(st, id, account, name, nameServers);
      } else {
        OtherZonesStay(st, id, account, name, nameServers, other);
      }
    }
  }

  lemma WithoutZoneKeepsValid(st: State, id: string)
    requires ValidState(st)
    ensures ValidState(WithoutZone(st, id))
  {
    var after := WithoutZone(st, id);
    forall other | other in after.zones ensures ValidZone(after, other) {
      assert ValidZone(st, other);
    }
  }

  /** Other writers leave one finalizer alone, and never rewrite the past. */
  ghost predicate Drifts(before: map<string, ApiServer.Log>, after: map<string, ApiServer.Log>, finalizer: string) {
    && before.Keys == after.Keys
    && forall name :: name in before ==> LogDrifts(before[name], after[name], finalizer)
  }

  ghost predicate LogDrifts(before: ApiServer.Log, after: ApiServer.Log, finalizer: string) {
    && before <= after
    && forall i :: |before| <= i < |after| ==>
         (finalizer in after[i].finalizers <==> finalizer in ApiServer.Current(before).finalizers)
  }

  ghost predicate ObjectPatched(before: map<string, ApiServer.Log>, after: map<string, ApiServer.Log>, name: string,
                                patch: ApiServer.Patch) {
    && name in before && ApiServer.Apply(before[name], patch).Ok?
    && after == before[name := ApiServer.Apply(before[name], patch).value]
  }

  class World {
    const order: Order
    const pageSize: nat    // AWS's own maximum for a listing that names none
    const reliable: bool   // no call fails for a reason of its own, and nobody else writes the objects
    var route53: State
    var objects: map<string, ApiServer.Log>
    var now: nat           // in seconds
    ghost var trail: seq<Moment>  // the world after every call ever made

    constructor (order: Order, pageSize: nat, reliable: bool, route53: State, objects: map<string, ApiServer.Log>)
      requires Sound(order) && ValidState(route53)
      ensures Valid() && this.route53 == route53 && this.objects == objects && trail == [] && now == 0
      ensures this.pageSize == pageSize && this.reliable == reliable
    {
      this.order, this.pageSize, this.reliable := order, pageSize, reliable;
      this.route53, this.objects, now := route53, objects, 0;
      trail := [];
    }

    ghost predicate Valid()
      reads this
    {
      Sound(order) && ValidState(route53)
    }

    ghost function Here(): Moment
      reads this
    {
      Moment(now, route53, objects)
    }

    lemma HereIs()
      ensures Here() == Moment(now, route53, objects)
    {
    }

    lemma OrderIsSound()
      requires Valid()
      ensures Sound(order)
    {
    }

    /** Only Route 53 matters to validity. */
    twostate lemma StillValid()
      requires old(Valid()) && route53 == old(route53)
      ensures Valid()
    {
    }

    method Draw() returns (fault: Fault)
      ensures reliable ==> fault == NoFault
    {
      fault := *;
      if reliable {
        fault := NoFault;
      }
    }

    method Tick(seconds: nat)
      modifies this`now
      ensures now == old(now) + seconds
    {
      now := now + seconds;
    }

    /** What happens between two calls of the operator: time passes, and others write the objects. */
    method Elsewhere(finalizer: string)
      modifies this`now, this`objects, this`trail
      ensures old(now) <= now && Drifts(old(objects), objects, finalizer)
      ensures trail == old(trail) + [Here()]
      ensures reliable ==> objects == old(objects)
    {
      var seconds: int := *;
      var writes: seq<(string, ApiServer.Meta)> := *;
      now := now + if seconds > 0 then seconds else 0;
      for i := 0 to |writes|
        invariant old(now) <= now && trail == old(trail)
        invariant Drifts(old(objects), objects, finalizer)
        invariant reliable ==> objects == old(objects)
      {
        var (name, meta) := writes[i];
        if !reliable && name in objects && ApiServer.Foreign(ApiServer.Current(objects[name]), meta, {finalizer}) {
          objects := objects[name := objects[name] + [meta]];
        }
      }
      trail := trail + [Here()];
    }

    /** Another writer of record sets. */
    method WriteForeign(id: string, sets: Sets)
      requires Valid() && id in route53.zones && ValidState(WithSets(route53, id, sets))
      modifies this`route53, this`trail
      ensures Valid() && route53 == WithSets(old(route53), id, sets) && trail == old(trail) + [Here()]
    {
      hide ValidState;
      route53 := WithSets(route53, id, sets);
      trail := trail + [Here()];
    }

    method PatchObject(name: string, patch: ApiServer.Patch) returns (r: Result<()>)
      requires name in objects
      modifies this`objects, this`trail
      ensures trail == old(trail) + [Here()]
      ensures objects == old(objects) || ObjectPatched(old(objects), objects, name, patch)
      ensures r.Ok? ==> ObjectPatched(old(objects), objects, name, patch)
      ensures reliable && ApiServer.Apply(old(objects)[name], patch).Ok? ==> r.Ok?
    {
      var fault := Draw();
      var answer := ApiServer.Apply(objects[name], patch);
      if fault == FailsBefore || answer.Err? {
        r := Err(if answer.Err? then answer.error else Failed);
      } else {
        objects := objects[name := answer.value];
        r := if fault == NoFault then Ok(()) else Err(Failed);
      }
      trail := trail + [Here()];
    }

    method ListHostedZonesByName(account: string, dnsName: string, max: nat) returns (r: Result<seq<Key>>)
      requires Valid()
      modifies this`trail
      ensures trail == old(trail) + [Here()]
      ensures r.Ok? ==> IsPage(order, ZoneKeys(route53, account), FromName(Canonical(dnsName)), max, r.value)
      ensures r.Err? ==> r.error == Failed && !reliable
    {
      var fault := Draw();
      var page := TakePage(order, ZoneKeys(route53, account), FromName(Canonical(dnsName)), max);
      trail := trail + [Here()];
      r := if fault == NoFault then Ok(page) else Err(Failed);
    }

    method CreateHostedZone(account: string, name: string)
      returns (r: Result<string>, ghost made: Option<(string, seq<string>)>)
      requires Valid()
      modifies this`route53, this`trail
      ensures Valid()
      ensures trail == old(trail) + [Here()]
      ensures made.None? ==> route53 == old(route53) && r.Err?
      ensures made.Some? ==>
        && made.value.0 !in old(route53).born && made.value.1 != []
        && route53 == Created(old(route53), made.value.0, account, Canonical(name), made.value.1)
      ensures r.Ok? ==> made.Some? && r.value == RawId(made.value.0)
      ensures r.Err? ==> r.error == Failed
      ensures reliable && Stored(Canonical(name)) ==> r.Ok?
    {
      hide ValidState;
      hide Created;
      hide Sound;
      var fault := Draw();
      // AWS draws ids and name servers itself and refuses malformed names
      var id := FreshId(route53.born.Keys);
      var nameServers: seq<string> := *;
      if |nameServers| == 0 {
        nameServers := ["ns"];
      }
      var stored := Canonical(name);
      if !Stored(stored) || fault == FailsBefore {
        r, made := Err(Failed), None;
      } else {
        r, made := if fault == NoFault then Ok(RawId(id)) else Err(Failed), Some((id, nameServers));
        AddZone(id, account, stored, nameServers);
      }
      trail := trail + [Here()];
    }

    /** Any id that was never used. */
    method FreshId(used: set<string>) returns (id: string)
      ensures id !in used && id != ""
    {
      id := *;
      if id == "" {
        id := "Z";
      }
      while id in used
        invariant id != ""
        decreases set u | u in used && |u| >= |id|
      {
        ghost var before := set u | u in used && |u| >= |id|;
        assert id in before;
        id := id + "0";
      }
    }

    method AddZone(id: string, account: string, stored: string, nameServers: seq<string>)
      requires Valid() && id !in route53.born && id != "" && Stored(stored)
      modifies this`route53
      ensures Valid() && route53 == Created(old(route53), id, account, stored, nameServers)
    {
      CreatedKeepsValid(route53, id, account, stored, nameServers);
      route53 := Created(route53, id, account, stored, nameServers);
    }

    method ChangeTags(id: string) returns (r: Result<()>)
      modifies this`trail
      ensures trail == old(trail) + [Here()]
      ensures r.Ok? ==> id in route53.zones
      ensures r.Err? ==> r.error == Failed
      ensures reliable && id in route53.zones ==> r.Ok?
    {
      var fault := Draw();
      trail := trail + [Here()];
      r := if fault == NoFault && id in route53.zones then Ok(()) else Err(Failed);
    }

    method DeleteHostedZone(id: string) returns (r: Result<()>)
      requires Valid()
      modifies this`route53, this`trail
      ensures Valid()
      ensures trail == old(trail) + [Here()]
      ensures route53 == old(route53)
           || (id in old(route53).zones && Deletable(old(route53).zones[id]) && route53 == WithoutZone(old(route53), id))
      ensures r.Ok? || r == Err(NoSuchHostedZone) ==> id !in route53.zones
      ensures reliable && id in old(route53).zones && Deletable(old(route53).zones[id]) ==> r.Ok?
    {
      var fault := Draw();
      if fault == FailsBefore {
        r := Err(Failed);
      } else if id !in route53.zones {
        r := Err(NoSuchHostedZone);
      } else if !(forall k :: k in route53.zones[id].sets ==> IsApex(route53.zones[id].name, k)) {
        r := Err(HostedZoneNotEmpty);
      } else {
        WithoutZoneKeepsValid(route53, id);
        route53 := WithoutZone(route53, id);
        r := if fault == NoFault then Ok(()) else Err(Failed);
      }
      trail := trail + [Here()];
    }

    method ListRecordSets(id: string, start: Start, max: nat) returns (r: Result<seq<RecordSet>>)
      requires Valid()
      modifies this`trail
      ensures trail == old(trail) + [Here()]
      ensures r.Ok? ==> id in route53.zones
      ensures r.Ok? ==> IsSetPage(order, route53.zones[id].sets, CanonicalStart(start), max, r.value)
      ensures reliable && id in route53.zones ==> r.Ok?
    {
      var fault := Draw();
      trail := trail + [Here()];
      if fault != NoFault || id !in route53.zones {
        return Err(Failed);
      }
      var sets := route53.zones[id].sets;
      var keys := TakePage(order, sets.Keys, CanonicalStart(start), max);
      hide *;
      r := Ok(WithData(order, sets, CanonicalStart(start), max, keys));
    }

    method ChangeRecordSets(id: string, changes: seq<Change>) returns (r: Result<()>)
      requires Valid()
      modifies this`route53, this`trail
      ensures Valid()
      ensures trail == old(trail) + [Here()]
      ensures route53 == old(route53) || Some(route53) == Changed(old(route53), id, changes)
      ensures r.Ok? ==> Some(route53) == Changed(old(route53), id, changes)
      ensures reliable && Changed(old(route53), id, changes).Some? ==> r.Ok?
    {
      hide ApplyAll;
      hide ValidZone;
      var fault := Draw();
      var changed := Changed(route53, id, changes);
      ChangedKeepsValid(route53, id, changes);
      if changed.None? || fault == FailsBefore {
        r := Err(if changed.None? then InvalidChangeBatch else Failed);
      } else {
        route53 := changed.value;
        r := if fault == NoFault then Ok(()) else Err(Failed);
      }
      trail := trail + [Here()];
    }
  }
}
