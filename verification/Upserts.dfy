/** Writing record sets: what a batch asks for, and what skipping recently written batches does to it. */
module Upserts {
  import opened Results
  import opened Strings
  import opened Listing
  import opened Cloud
  import opened CacheKeys
  import opened ZoneCaches

  const ALIAS := "ALIAS"
  const RECORD_TTL := 300

  predicate Supported(kind: string) {
    kind == A || kind == CNAME || kind == ALIAS
  }

  /** The client reads the first value of every record it writes; without one that read panics. */
  predicate HaveValues(records: seq<DnsRecord>) {
    forall r :: r in records && Supported(r.kind) ==> r.values != []
  }

  function ChangeFor(r: DnsRecord, canonicalZone: string -> string): Change
    requires Supported(r.kind) && r.values != []
  {
    if r.kind == ALIAS then Change(Upsert, r.name, A, AliasTo(r.values[0], canonicalZone(r.region)))
    else Change(Upsert, r.name, r.kind, Values(RECORD_TTL, [r.values[0]]))
  }

  /** Records of any other kind are skipped. */
  function ChangesFor(records: seq<DnsRecord>, canonicalZone: string -> string): seq<Change>
    requires HaveValues(records)
  {
    if records == [] then []
    else
      var last := records[|records| - 1];
      ChangesFor(records[..|records| - 1], canonicalZone)
      + if Supported(last.kind) then [ChangeFor(last, canonicalZone)] else []
  }

  /** A panic on a record without values ends the reconcile like an error. */
  method BuildChanges(records: seq<DnsRecord>, canonicalZone: string -> string) returns (r: Result<seq<Change>>)
    ensures r.Ok? <==> HaveValues(records)
    ensures r.Ok? ==> r.value == ChangesFor(records, canonicalZone)
  {
    var changes := [];
    for i := 0 to |records|
      invariant HaveValues(records[..i]) && changes == ChangesFor(records[..i], canonicalZone)
    {
      assert records[..i + 1][..i] == records[..i] && records[..i + 1] == records[..i] + [records[i]];
      if Supported(records[i].kind) {
        if records[i].values == [] {
          assert records[i] in records;
          return Err(Failed);
        }
        changes := changes + [ChangeFor(records[i], canonicalZone)];
      }
    }
    assert records[..|records|] == records;
    r := Ok(changes);
  }

  function DelegationChange(name: string, values: seq<string>): Change {
    Change(Upsert, name, NS, Values(RECORD_TTL, values))
  }

  ghost predicate OnlyUpserts(changes: seq<Change>) {
    forall c :: c in changes ==> c.action == Upsert
  }

  lemma {:induction false} ChangesForUpserts(records: seq<DnsRecord>, canonicalZone: string -> string)
    requires HaveValues(records)
    ensures OnlyUpserts(ChangesFor(records, canonicalZone))
    ensures forall c :: c in ChangesFor(records, canonicalZone) ==>
      exists r :: r in records && Supported(r.kind) && c == ChangeFor(r, canonicalZone)
  {
    if records != [] {
      ChangesForUpserts(records[..|records| - 1], canonicalZone);
    }
  }

  /** What a batch of upserts leaves at a key: the last change of that key. */
  function FinalData(changes: seq<Change>, key: Key): Option<Data>
    decreases |changes|
  {
    if changes == [] then None
    else
      var last := changes[|changes| - 1];
      if KeyOf(last) == key then Some(last.data) else FinalData(changes[..|changes| - 1], key)
  }

  /** The zone holds exactly what the batch asks for at every key the batch mentions. */
  ghost predicate Agrees(st: State, id: string, changes: seq<Change>) {
    id in st.zones && forall k :: FinalData(changes, k).Some? ==>
      k in st.zones[id].sets && st.zones[id].sets[k] == FinalData(changes, k).value
  }

  /** A batch of upserts always applies, leaves what it asks for, and touches nothing else. */
  lemma {:induction false} UpsertsApply(zoneName: string, sets: Sets, changes: seq<Change>)
    requires OnlyUpserts(changes)
    ensures
      var r := ApplyAll(zoneName, sets, changes);
      && r.Some?
      && forall k ::
           match FinalData(changes, k)
           case Some(d) => k in r.value && r.value[k] == d
           case None => (k in r.value <==> k in sets) && (k in sets ==> r.value[k] == sets[k])
    decreases |changes|
  {
    if changes != [] {
      UpsertsApply(zoneName, sets, changes[..|changes| - 1]);
    }
  }

  // ---- what that means for the records ----

  /** The zone has the record in the form of its kind: an alias as an A set that points to the first value in the
      region's load balancer zone, a CNAME or A with the first value alone and 300 s to live. */
  predicate HoldsRecord(sets: Sets, r: DnsRecord, canonicalZone: string -> string) {
    var plain, alias := Key(Canonical(r.name), r.kind), Key(Canonical(r.name), "A");
    && r.values != []
    && (r.kind == "ALIAS" ==>
          && alias in sets && sets[alias].AliasTo?
          && sets[alias].target == r.values[0] && sets[alias].zoneId == canonicalZone(r.region))
    && (r.kind == "CNAME" || r.kind == "A" ==>
          && plain in sets && sets[plain].Values? && sets[plain].ttl == 300 && sets[plain].values == [r.values[0]])
  }

  predicate SameSet(a: DnsRecord, b: DnsRecord) {
    Canonical(a.name) == Canonical(b.name) && (a.kind == b.kind || {a.kind, b.kind} == {"A", "ALIAS"})
  }

  /** A record that is written, and that no later one overwrites. */
  predicate LastOfItsSet(records: seq<DnsRecord>, i: nat) {
    && i < |records| && records[i].kind in {"CNAME", "A", "ALIAS"}
    && forall j :: i < j < |records| && records[j].kind in {"CNAME", "A", "ALIAS"} ==> !SameSet(records[j], records[i])
  }

  /** The sets hold every record of the batch, the last one where several are for one set. */
  predicate HoldsBatch(sets: Sets, records: seq<DnsRecord>, canonicalZone: string -> string) {
    forall i :: 0 <= i < |records| && LastOfItsSet(records, i) ==> HoldsRecord(sets, records[i], canonicalZone)
  }

  predicate ZoneHolds(st: State, id: string, records: seq<DnsRecord>, canonicalZone: string -> string) {
    id in st.zones && HoldsBatch(st.zones[id].sets, records, canonicalZone)
  }

  lemma SetsMeetIff(a: DnsRecord, b: DnsRecord, canonicalZone: string -> string)
    requires Supported(a.kind) && Supported(b.kind) && a.values != [] && b.values != []
    ensures KeyOf(ChangeFor(a, canonicalZone)) == KeyOf(ChangeFor(b, canonicalZone)) <==> SameSet(a, b)
  {
    hide Canonical;
    assert A != CNAME && ALIAS != CNAME && A != ALIAS;
    assert "CNAME" !in {"A", "ALIAS"};
    if a.kind != b.kind && a.kind != CNAME && b.kind != CNAME {
      assert {a.kind, b.kind} == {"A", "ALIAS"};
    }
    if {a.kind, b.kind} == {"A", "ALIAS"} {
      assert a.kind in {a.kind, b.kind} && b.kind in {a.kind, b.kind};
    }
  }

  lemma HoldsRecordIff(sets: Sets, r: DnsRecord, canonicalZone: string -> string)
    requires Supported(r.kind) && r.values != []
    ensures
      var change := ChangeFor(r, canonicalZone);
      HoldsRecord(sets, r, canonicalZone) <==> KeyOf(change) in sets && sets[KeyOf(change)] == change.data
  {
    hide Canonical;
    assert A != CNAME && ALIAS != CNAME && A != ALIAS;
  }

  /** What is left at a key comes from the last record of its set. */
  lemma {:induction false} FinalDataIsLast(records: seq<DnsRecord>, canonicalZone: string -> string, key: Key) returns (i: nat)
    requires HaveValues(records) && FinalData(ChangesFor(records, canonicalZone), key).Some?
    ensures LastOfItsSet(records, i) && KeyOf(ChangeFor(records[i], canonicalZone)) == key
    ensures FinalData(ChangesFor(records, canonicalZone), key) == Some(ChangeFor(records[i], canonicalZone).data)
    decreases |records|
  {
    hide Canonical;
    hide SameSet;
    var n := |records| - 1;
    var last, before := records[n], ChangesFor(records[..n], canonicalZone);
    if Supported(last.kind) && KeyOf(ChangeFor(last, canonicalZone)) == key {
      i := n;
      LastChangeDecides(before, ChangeFor(last, canonicalZone), key);
    } else {
      if Supported(last.kind) {
        LastChangeDecides(before, ChangeFor(last, canonicalZone), key);
      } else {
        assert before + [] == before;
      }
      i := FinalDataIsLast(records[..n], canonicalZone, key);
      if Supported(last.kind) {
        SetsMeetIff(last, records[i], canonicalZone);
      }
      forall j | i < j < |records| && records[j].kind in {"CNAME", "A", "ALIAS"} ensures !SameSet(records[j], records[i]) {
        if j < n {
          assert records[..n][j] == records[j];
        }
      }
    }
  }

  lemma LastChangeDecides(changes: seq<Change>, last: Change, key: Key)
    ensures FinalData(changes + [last], key) == if KeyOf(last) == key then Some(last.data) else FinalData(changes, key)
  {
    assert (changes + [last])[..|changes|] == changes;
  }

  /** And the last record of a set decides what is left there. */
  lemma {:induction false} LastIsFinalData(records: seq<DnsRecord>, canonicalZone: string -> string, i: nat)
    requires HaveValues(records) && LastOfItsSet(records, i)
    ensures
      var change := ChangeFor(records[i], canonicalZone);
      FinalData(ChangesFor(records, canonicalZone), KeyOf(change)) == Some(change.data)
    decreases |records|
  {
    hide Canonical;
    hide SameSet;
    var n := |records| - 1;
    var last, before := records[n], ChangesFor(records[..n], canonicalZone);
    var change := ChangeFor(records[i], canonicalZone);
    if Supported(last.kind) {
      LastChangeDecides(before, ChangeFor(last, canonicalZone), KeyOf(change));
    } else {
      assert before + [] == before;
    }
    if i < n {
      forall j | i < j < n && records[..n][j].kind in {"CNAME", "A", "ALIAS"}
        ensures !SameSet(records[..n][j], records[..n][i])
      {
        assert records[..n][j] == records[j];
      }
      LastIsFinalData(records[..n], canonicalZone, i);
      if Supported(last.kind) {
        SetsMeetIff(last, records[i], canonicalZone);
      }
    }
  }

  /** A zone agrees with a batch if and only if it holds its records. */
  lemma AgreesIff(st: State, id: string, records: seq<DnsRecord>, canonicalZone: string -> string)
    requires HaveValues(records)
    ensures Agrees(st, id, ChangesFor(records, canonicalZone)) <==> ZoneHolds(st, id, records, canonicalZone)
  {
    hide Canonical;
    hide HoldsRecord;
    hide LastOfItsSet;
    var changes := ChangesFor(records, canonicalZone);
    if Agrees(st, id, changes) {
      forall i | 0 <= i < |records| && LastOfItsSet(records, i)
        ensures HoldsRecord(st.zones[id].sets, records[i], canonicalZone)
      {
        WrittenHasValue(records, i);
        LastIsFinalData(records, canonicalZone, i);
        HoldsRecordIff(st.zones[id].sets, records[i], canonicalZone);
      }
    }
    if ZoneHolds(st, id, records, canonicalZone) {
      forall k | FinalData(changes, k).Some?
        ensures k in st.zones[id].sets && st.zones[id].sets[k] == FinalData(changes, k).value
      {
        var i := FinalDataIsLast(records, canonicalZone, k);
        WrittenHasValue(records, i);
        HoldsRecordIff(st.zones[id].sets, records[i], canonicalZone);
      }
    }
  }

  lemma WrittenHasValue(records: seq<DnsRecord>, i: nat)
    requires HaveValues(records) && LastOfItsSet(records, i)
    ensures i < |records| && Supported(records[i].kind) && records[i].values != []
  {
    assert records[i] in records;
  }

  lemma BatchAgrees(st: State, id: string, changes: seq<Change>, after: State)
    requires OnlyUpserts(changes) && Some(after) == Changed(st, id, changes)
    ensures Agrees(after, id, changes)
  {
    UpsertsApply(st.zones[id].name, st.zones[id].sets, changes);
  }

  // ---- the upsert cache ----

  datatype View = View(upserts: Cache<bool>, st: State, now: nat)

  /** One call of an upsert: skipped while the key is remembered, else sent; remembered only when it succeeded. */
  ghost predicate UpsertStep(before: View, after: View, key: string, id: string, changes: seq<Change>, ok: bool) {
    && after.now == before.now
    && (if Get(before.upserts, key, before.now).Some? then ok && after == before
        else if ok then
          && Some(after.st) == Changed(before.st, id, changes)
          && after.upserts == SetDefault(before.upserts, key, true, before.now, UPSERT_TTL)
        else
          && after.upserts == before.upserts
          && (after.st == before.st || Some(after.st) == Changed(before.st, id, changes)))
  }

  /** A success leaves the batch in the zone if and only if it was sent, or the zone held it already. */
  lemma SuccessIsTrueIff(before: View, after: View, key: string, id: string, changes: seq<Change>)
    requires OnlyUpserts(changes) && UpsertStep(before, after, key, id, changes, true)
    ensures Agrees(after.st, id, changes) <==> Get(before.upserts, key, before.now).None? || Agrees(before.st, id, changes)
  {
    hide Agrees;
    hide Changed;
    if Get(before.upserts, key, before.now).None? {
      BatchAgrees(before.st, id, changes, after.st);
    }
  }

  datatype Event = Requests(ok: bool) | Elsewhere

  /** Time passes, other keys are remembered or forgotten, and other record sets or zones change. */
  ghost predicate ElsewhereStep(before: View, after: View, key: string, id: string, changes: seq<Change>) {
    && before.now <= after.now
    && (key in after.upserts ==> key in before.upserts && after.upserts[key] == before.upserts[key])
    && (id in before.st.zones ==> id in after.st.zones)
    && forall k :: id in before.st.zones && FinalData(changes, k).Some? && k in before.st.zones[id].sets ==>
         k in after.st.zones[id].sets && after.st.zones[id].sets[k] == before.st.zones[id].sets[k]
  }

  ghost predicate Step(before: View, e: Event, after: View, key: string, id: string, changes: seq<Change>) {
    match e
    case Requests(ok) => UpsertStep(before, after, key, id, changes, ok)
    case Elsewhere => ElsewhereStep(before, after, key, id, changes)
  }

  /** From the first view on, this batch is the only one requested for its record sets. */
  ghost predicate Run(views: seq<View>, events: seq<Event>, key: string, id: string, changes: seq<Change>) {
    && |views| == |events| + 1
    && Honest(views[0].upserts, views[0].now, UPSERT_TTL)
    && forall i :: 0 <= i < |events| ==> Step(views[i], events[i], views[i + 1], key, id, changes)
  }

  /** An entry that outlives every entry of the past vouches for the zone: no skipped call extends a life. */
  ghost predicate Vouches(v: View, start: nat, key: string, id: string, changes: seq<Change>) {
    && start <= v.now
    && (key in v.upserts && start + UPSERT_TTL < v.upserts[key].expires ==> Agrees(v.st, id, changes))
  }

  lemma AgreementStays(before: View, e: Event, after: View, key: string, id: string, changes: seq<Change>)
    requires OnlyUpserts(changes) && Step(before, e, after, key, id, changes) && Agrees(before.st, id, changes)
    ensures Agrees(after.st, id, changes)
  {
    if after.st != before.st && e.Requests? {
      BatchAgrees(before.st, id, changes, after.st);
    }
  }

  lemma StepVouches(before: View, e: Event, after: View, start: nat, key: string, id: string, changes: seq<Change>)
    requires OnlyUpserts(changes) && Step(before, e, after, key, id, changes)
    requires Vouches(before, start, key, id, changes)
    ensures Vouches(after, start, key, id, changes)
    ensures e == Requests(true) && start + UPSERT_TTL < before.now ==> Agrees(after.st, id, changes)
  {
    hide Agrees;
    if Agrees(before.st, id, changes) {
      AgreementStays(before, e, after, key, id, changes);
    } else if e == Requests(true) && Get(before.upserts, key, before.now).None? {
      BatchAgrees(before.st, id, changes, after.st);
    }
  }

  lemma {:induction false} RunVouches(views: seq<View>, events: seq<Event>, key: string, id: string,
                                      changes: seq<Change>, n: nat)
    requires OnlyUpserts(changes) && Run(views, events, key, id, changes) && n < |views|
    ensures Vouches(views[n], views[0].now, key, id, changes)
  {
    hide Vouches;
    hide Step;
    if n == 0 {
      StartVouches(views[0], key, id, changes);
    } else {
      RunVouches(views, events, key, id, changes, n - 1);
      StepVouches(views[n - 1], events[n - 1], views[n], views[0].now, key, id, changes);
    }
  }

  lemma StartVouches(v: View, key: string, id: string, changes: seq<Change>)
    requires Honest(v.upserts, v.now, UPSERT_TTL)
    ensures Vouches(v, v.now, key, id, changes)
  {
  }

  /** If from some time on only one batch is requested for its record sets, any call that succeeds more than one
      lifetime later leaves every record of the batch in the zone, whether it was sent or skipped. */
  lemma LateSuccessIsTrue(views: seq<View>, events: seq<Event>, key: string, id: string, changes: seq<Change>, n: nat)
    requires OnlyUpserts(changes) && Run(views, events, key, id, changes)
    requires n < |events| && events[n] == Requests(true) && views[0].now + 120 < views[n].now
    ensures Agrees(views[n + 1].st, id, changes)
  {
    RunVouches(views, events, key, id, changes, n);
    StepVouches(views[n], events[n], views[n + 1], views[0].now, key, id, changes);
  }

  /** Time passes and nothing else happens. */
  predicate Waited(before: View, after: View) {
    before.now <= after.now && after == before.(now := after.now)
  }

  /** The 120 s are exact: one batch, then another one that disagrees with it, then the first again. The third call
      succeeds, and the zone holds the first batch if and only if more than 120 s have passed since it was first sent. */
  lemma ThirdCallIsTrueIff(start: View, first: View, later: View, second: View, last: View, third: View,
                           a: seq<Change>, b: seq<Change>, id: string, keyA: string, keyB: string, k: Key)
    requires OnlyUpserts(a) && OnlyUpserts(b) && keyA != keyB && keyA !in start.upserts && keyB !in start.upserts
    requires FinalData(a, k).Some? && FinalData(b, k).Some? && FinalData(a, k) != FinalData(b, k)
    requires UpsertStep(start, first, keyA, id, a, true) && Waited(first, later)
    requires UpsertStep(later, second, keyB, id, b, true) && Waited(second, last)
    requires UpsertStep(last, third, keyA, id, a, true)
    ensures Agrees(third.st, id, a) <==> start.now + 120 < last.now
  {
    hide Changed;
    BatchAgrees(later.st, id, b, second.st);
    if start.now + UPSERT_TTL < last.now {
      BatchAgrees(last.st, id, a, third.st);
    }
  }
}
