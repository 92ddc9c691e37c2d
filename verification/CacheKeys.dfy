/** The keys under which the Route 53 client remembers recent upserts. */
module CacheKeys {
  import opened Strings
  import opened Quoting

  datatype DnsRecord = DnsRecord(kind: string, name: string, values: seq<string>, region: string)

  function RecordHash(printable: char -> bool, r: DnsRecord): string {
    Quote(printable, r.kind) + "," + Quote(printable, r.name) + "," + Quote(printable, Join(r.values, ","))
  }

  function BatchHash(printable: char -> bool, records: seq<DnsRecord>): string {
    if records == [] then ""
    else BatchHash(printable, records[..|records| - 1]) + RecordHash(printable, records[|records| - 1])
  }

  method BuildHash(printable: char -> bool, records: seq<DnsRecord>) returns (hash: string)
    ensures hash == BatchHash(printable, records)
  {
    hash := "";
    for i := 0 to |records|
      invariant hash == BatchHash(printable, records[..i])
    {
      assert records[..i + 1][..i] == records[..i];
      hash := hash + RecordHash(printable, records[i]);
    }
    assert records[..|records|] == records;
  }

  function ZonePrefix(printable: char -> bool, zoneId: string): string {
    "zoneId=" + Quote(printable, zoneId) + "/"
  }

  function ZoneKey(printable: char -> bool, zoneId: string, records: seq<DnsRecord>): string {
    ZonePrefix(printable, zoneId) + "hash=" + BatchHash(printable, records)
  }

  function DelegationKey(printable: char -> bool, parentZoneId: string, name: string, values: seq<string>): string {
    "parentZoneId=" + Quote(printable, parentZoneId) + "/name=" + Quote(printable, name)
    + "/values=" + Quote(printable, Join(values, ","))
  }

  /** Two records that an upsert key cannot tell apart: same kind, name and comma-joined values, any region. */
  predicate SameInKey(a: DnsRecord, b: DnsRecord) {
    a.kind == b.kind && a.name == b.name && Join(a.values, ",") == Join(b.values, ",")
  }

  predicate SameBatchInKey(a: seq<DnsRecord>, b: seq<DnsRecord>) {
    |a| == |b| && forall i :: 0 <= i < |a| ==> SameInKey(a[i], b[i])
  }

  lemma LiteralCancels(literal: string, x: string, y: string)
    requires literal + x == literal + y
    ensures x == y
  {
    assert x == (literal + x)[|literal|..] && y == (literal + y)[|literal|..];
  }

  lemma Regroup(k: string, n: string, v: string, x: string)
    ensures (k + "," + n + "," + v) + x == k + ("," + (n + ("," + (v + x))))
  {
  }

  lemma RecordHashCancels(printable: char -> bool, a: DnsRecord, b: DnsRecord, x: string, y: string)
    requires RecordHash(printable, a) + x == RecordHash(printable, b) + y
    ensures SameInKey(a, b) && x == y
  {
    var va := Quote(printable, Join(a.values, ",")) + x;
    var vb := Quote(printable, Join(b.values, ",")) + y;
    var na := Quote(printable, a.name) + ("," + va);
    var nb := Quote(printable, b.name) + ("," + vb);
    Regroup(Quote(printable, a.kind), Quote(printable, a.name), Quote(printable, Join(a.values, ",")), x);
    Regroup(Quote(printable, b.kind), Quote(printable, b.name), Quote(printable, Join(b.values, ",")), y);
    QuoteCancels(printable, a.kind, b.kind, "," + na, "," + nb);
    LiteralCancels(",", na, nb);
    QuoteCancels(printable, a.name, b.name, "," + va, "," + vb);
    LiteralCancels(",", va, vb);
    QuoteCancels(printable, Join(a.values, ","), Join(b.values, ","), x, y);
  }

  lemma Associate(x: string, y: string, z: string)
    ensures (x + y) + z == x + (y + z)
  {
  }

  lemma {:induction false} BatchHashFront(printable: char -> bool, r: DnsRecord, rest: seq<DnsRecord>)
    ensures BatchHash(printable, [r] + rest) == RecordHash(printable, r) + BatchHash(printable, rest)
    decreases |rest|
  {
    var all := [r] + rest;
    assert all[..|all| - 1] == if rest == [] then [] else [r] + rest[..|rest| - 1];
    var front := RecordHash(printable, r);
    if rest == [] {
      assert "" + front == front == front + "";
    } else {
      var init := rest[..|rest| - 1];
      BatchHashFront(printable, r, init);
      Associate(front, BatchHash(printable, init), RecordHash(printable, rest[|rest| - 1]));
    }
  }

  lemma EmptyHashIff(printable: char -> bool, records: seq<DnsRecord>)
    ensures BatchHash(printable, records) == "" <==> records == []
  {
    if records != [] {
      assert |RecordHash(printable, records[|records| - 1])| > 0;
    }
  }

  lemma {:induction false} BatchHashDetermines(printable: char -> bool, a: seq<DnsRecord>, b: seq<DnsRecord>)
    requires BatchHash(printable, a) == BatchHash(printable, b)
    ensures SameBatchInKey(a, b)
    decreases |a|
  {
    hide RecordHash;
    EmptyHashIff(printable, a);
    EmptyHashIff(printable, b);
    if a != [] {
      assert a == [a[0]] + a[1..] && b == [b[0]] + b[1..];
      BatchHashFront(printable, a[0], a[1..]);
      BatchHashFront(printable, b[0], b[1..]);
      RecordHashCancels(printable, a[0], b[0], BatchHash(printable, a[1..]), BatchHash(printable, b[1..]));
      BatchHashDetermines(printable, a[1..], b[1..]);
      forall i | 0 <= i < |a| ensures SameInKey(a[i], b[i]) {
        if i > 0 {
          assert a[i] == a[1..][i - 1] && b[i] == b[1..][i - 1];
        }
      }
    }
  }

  lemma {:induction false} SameBatchSameHash(printable: char -> bool, a: seq<DnsRecord>, b: seq<DnsRecord>)
    requires SameBatchInKey(a, b)
    ensures BatchHash(printable, a) == BatchHash(printable, b)
    decreases |a|
  {
    if a != [] {
      SameBatchSameHash(printable, a[..|a| - 1], b[..|b| - 1]);
      assert SameInKey(a[|a| - 1], b[|b| - 1]);
    }
  }

  /** A zone's key prefix occurs at the front of a zone key only for that very zone. */
  lemma PrefixSelectsZone(printable: char -> bool, zoneId: string, other: string, tail: string)
    ensures ZonePrefix(printable, zoneId) <= ZonePrefix(printable, other) + tail <==> zoneId == other
  {
    hide Quote;
    var p, whole := ZonePrefix(printable, zoneId), ZonePrefix(printable, other) + tail;
    if p <= whole {
      var rest := whole[|p|..];
      assert whole == p + rest;
      assert (p + rest)[7..] == Quote(printable, zoneId) + ("/" + rest);
      assert whole[7..] == Quote(printable, other) + ("/" + tail);
      QuoteCancels(printable, zoneId, other, "/" + rest, "/" + tail);
    }
  }

  /** Two record upserts share a key exactly when the zone agrees and the batches agree up to region and joining. */
  lemma ZoneKeysAgreeIff(printable: char -> bool, zone: string, a: seq<DnsRecord>, other: string, b: seq<DnsRecord>)
    ensures ZoneKey(printable, zone, a) == ZoneKey(printable, other, b) <==> zone == other && SameBatchInKey(a, b)
  {
    hide Quote;
    var ka, kb := ZoneKey(printable, zone, a), ZoneKey(printable, other, b);
    if ka == kb {
      var tail := "hash=" + BatchHash(printable, b);
      assert kb == ZonePrefix(printable, other) + tail;
      assert ka == ZonePrefix(printable, zone) + ("hash=" + BatchHash(printable, a));
      assert ZonePrefix(printable, zone) <= kb;
      PrefixSelectsZone(printable, zone, other, tail);
      var n := |ZonePrefix(printable, zone)| + 5;
      assert ka[n..] == BatchHash(printable, a) && kb[n..] == BatchHash(printable, b);
      BatchHashDetermines(printable, a, b);
    } else if zone == other && SameBatchInKey(a, b) {
      SameBatchSameHash(printable, a, b);
    }
  }

  lemma DelegationKeyParts(printable: char -> bool, parent: string, name: string, values: seq<string>)
    ensures
      var tail := Quote(printable, name) + ("/values=" + Quote(printable, Join(values, ",")));
      DelegationKey(printable, parent, name, values)[13..] == Quote(printable, parent) + ("/name=" + tail)
  {
  }

  /** Two delegation upserts share a key exactly when parent, name and comma-joined name servers agree. */
  lemma DelegationKeysAgreeIff(printable: char -> bool, parent: string, name: string, values: seq<string>,
                               otherParent: string, otherName: string, otherValues: seq<string>)
    ensures DelegationKey(printable, parent, name, values) == DelegationKey(printable, otherParent, otherName, otherValues)
       <==> parent == otherParent && name == otherName && Join(values, ",") == Join(otherValues, ",")
  {
    var ka := DelegationKey(printable, parent, name, values);
    var kb := DelegationKey(printable, otherParent, otherName, otherValues);
    if ka == kb {
      var va, vb := Quote(printable, Join(values, ",")), Quote(printable, Join(otherValues, ","));
      var na, nb := Quote(printable, name) + ("/values=" + va), Quote(printable, otherName) + ("/values=" + vb);
      DelegationKeyParts(printable, parent, name, values);
      DelegationKeyParts(printable, otherParent, otherName, otherValues);
      QuoteCancels(printable, parent, otherParent, "/name=" + na, "/name=" + nb);
      LiteralCancels("/name=", na, nb);
      QuoteCancels(printable, name, otherName, "/values=" + va, "/values=" + vb);
      LiteralCancels("/values=", va, vb);
      assert va == va + "" && vb == vb + "";
      QuoteCancels(printable, Join(values, ","), Join(otherValues, ","), "", "");
    }
  }

  /** Record keys and delegation keys live in one cache and never meet, nor does invalidation reach a delegation key. */
  lemma KindsNeverCollide(printable: char -> bool, zone: string, records: seq<DnsRecord>, parent: string,
                          name: string, values: seq<string>)
    ensures ZoneKey(printable, zone, records) != DelegationKey(printable, parent, name, values)
    ensures !(ZonePrefix(printable, zone) <= DelegationKey(printable, parent, name, values))
  {
    assert ZonePrefix(printable, zone)[0] == 'z';
    assert ZoneKey(printable, zone, records)[0] == 'z';
    assert DelegationKey(printable, parent, name, values)[0] == 'p';
  }

  /** Invalidating by prefix drops a record key exactly when the key is of that zone. */
  lemma InvalidationIsExact(printable: char -> bool, zone: string, other: string, records: seq<DnsRecord>)
    ensures ZonePrefix(printable, zone) <= ZoneKey(printable, other, records) <==> zone == other
  {
    var tail := "hash=" + BatchHash(printable, records);
    assert ZoneKey(printable, other, records) == ZonePrefix(printable, other) + tail;
    PrefixSelectsZone(printable, zone, other, tail);
  }
}
