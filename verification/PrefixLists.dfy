/** Entries of the managed prefix list shared by all clusters; each cluster owns the entry that names it. */
module PrefixLists {
  import opened Results

  datatype Entry = Entry(cidr: string, description: string)

  /** AWS refuses more entries than the operator asks for when it creates the list. */
  const MAX_ENTRIES := 45
  /** The page size of the one listing `entryExists` makes. */
  const PAGE := 100

  function DescriptionOf(cluster: string): string {
    "CIDR block for cluster " + cluster
  }

  lemma DescriptionNamesCluster(a: string, b: string)
    requires DescriptionOf(a) == DescriptionOf(b)
    ensures a == b
  {
    var n := |"CIDR block for cluster "|;
    assert DescriptionOf(a)[n..] == a && DescriptionOf(b)[n..] == b;
  }

  /** At most one entry per CIDR. */
  ghost predicate Unique(entries: seq<Entry>) {
    forall i, j :: 0 <= i < j < |entries| ==> entries[i].cidr != entries[j].cidr
  }

  predicate Mentions(entries: seq<Entry>, cidr: string) {
    exists i :: 0 <= i < |entries| && entries[i].cidr == cidr
  }

  /** Another entry holds the CIDR. */
  predicate Taken(entries: seq<Entry>, entry: Entry) {
    exists i :: 0 <= i < |entries| && entries[i].cidr == entry.cidr && entries[i] != entry
  }

  /** AWS removes by CIDR. */
  function Without(entries: seq<Entry>, cidr: string): (r: seq<Entry>)
    ensures |r| <= |entries|
    ensures forall e :: e in r <==> e in entries && e.cidr != cidr
  {
    if entries == [] then []
    else
      var rest := Without(entries[1..], cidr);
      assert entries == [entries[0]] + entries[1..];
      if entries[0].cidr == cidr then rest else [entries[0]] + rest
  }

  lemma {:induction false} WithoutMissing(entries: seq<Entry>, cidr: string)
    requires !Mentions(entries, cidr)
    ensures Without(entries, cidr) == entries
  {
    if entries != [] {
      assert entries[0].cidr != cidr;
      assert forall i :: 0 <= i < |entries[1..]| ==> entries[1..][i] == entries[i + 1];
      WithoutMissing(entries[1..], cidr);
    }
  }

  lemma {:induction false} WithoutAppended(entries: seq<Entry>, last: Entry)
    ensures Without(entries + [last], last.cidr) == Without(entries, last.cidr)
  {
    if entries == [] {
      assert entries + [last] == [last];
      assert Without([], last.cidr) == [];
    } else {
      WithoutAppended(entries[1..], last);
      assert (entries + [last])[1..] == entries[1..] + [last];
    }
  }

  lemma {:induction false} WithoutKeepsUnique(entries: seq<Entry>, cidr: string)
    requires Unique(entries)
    ensures Unique(Without(entries, cidr))
  {
    if entries != [] {
      WithoutKeepsUnique(entries[1..], cidr);
      var rest := Without(entries[1..], cidr);
      forall j | 0 <= j < |rest| ensures rest[j].cidr != entries[0].cidr {
        assert rest[j] in entries[1..];
      }
    }
  }

  /** No CIDR twice, and within the maximum. */
  ghost predicate Owned(entries: seq<Entry>) {
    Unique(entries) && |entries| <= MAX_ENTRIES
  }

  /** The prefix list in AWS. Every modification names the version it is based on. */
  class ManagedPrefixList {
    const present: bool   // whether AWS knows the list at all
    const reliable: bool  // no call fails for a reason of its own
    var entries: seq<Entry>
    var version: nat

    constructor (present: bool, reliable: bool)
      ensures this.present == present && this.reliable == reliable && entries == [] && version == 1
    {
      this.present, this.reliable := present, reliable;
      entries, version := [], 1;
    }

    ghost predicate Valid()
      reads this
    {
      Owned(entries) && (!present ==> entries == [])
    }

    method GetEntries(max: nat) returns (r: Result<seq<Entry>>)
      ensures r.Ok? ==> r.value == if |entries| <= max then entries else entries[..max]
      ensures r == Err(PrefixListNotFound) ==> !present
      ensures r.Ok? ==> present
      ensures reliable ==>
        r == if present then Ok(if |entries| <= max then entries else entries[..max]) else Err(PrefixListNotFound)
    {
      var fails: bool := *;
      if fails && !reliable {
        return Err(Failed);
      }
      r := if !present then Err(PrefixListNotFound) else Ok(if |entries| <= max then entries else entries[..max]);
    }

    /** The operator looks the list up by id; a list that is not found is an error there. */
    method GetVersion() returns (r: Result<nat>)
      ensures r.Ok? ==> present && r.value == version
      ensures reliable && present ==> r.Ok?
    {
      var fails: bool := *;
      r := if (fails && !reliable) || !present then Err(Failed) else Ok(version);
    }

    method Add(current: nat, entry: Entry) returns (r: Result<()>)
      modifies this
      ensures entries == old(entries)
           || (present && current == old(version) && |old(entries)| < MAX_ENTRIES && entries == old(entries) + [entry])
      ensures r.Ok? ==> present && entries == old(entries) + [entry]
      ensures reliable && present && current == old(version) && |old(entries)| < MAX_ENTRIES ==> r.Ok?
    {
      var fault: Fault := *;
      if reliable {
        fault := NoFault;
      }
      if !present || current != version || |entries| >= MAX_ENTRIES || fault == FailsBefore {
        return Err(Failed);
      }
      entries, version := entries + [entry], version + 1;
      r := if fault == NoFault then Ok(()) else Err(Failed);
    }

    method Remove(current: nat, cidr: string) returns (r: Result<()>)
      modifies this
      ensures entries == old(entries) || entries == Without(old(entries), cidr)
      ensures r.Ok? ==> entries == Without(old(entries), cidr)
      ensures r == Err(PrefixListNotFound) ==> !present
      ensures reliable && present && current == old(version) ==> r.Ok?
    {
      var fault: Fault := *;
      if reliable {
        fault := NoFault;
      }
      if !present {
        return Err(PrefixListNotFound);
      }
      if current != version || fault == FailsBefore {
        return Err(Failed);
      }
      entries, version := Without(entries, cidr), version + 1;
      r := if fault == NoFault then Ok(()) else Err(Failed);
    }
  }

  /** The operator's client. CIDR syntax is the net library's. */
  class PrefixListClient {
    const list: ManagedPrefixList
    const isCidr: string -> bool

    constructor (list: ManagedPrefixList, isCidr: string -> bool)
      ensures this.list == list && this.isCidr == isCidr
    {
      this.list := list;
      this.isCidr := isCidr;
    }

    /** Exactly when an entry can be applied: its CIDR parses, and it is there, or the CIDR is free and the list has room. */
    ghost predicate Appliable(entry: Entry)
      reads list
    {
      && isCidr(entry.cidr)
      && (entry in list.entries
          || (list.present && !Mentions(list.entries, entry.cidr) && |list.entries| < MAX_ENTRIES))
    }

    /** The first entry with the CIDR decides: the same description, or a conflict. */
    method EntryExists(entry: Entry) returns (r: Result<bool>)
      requires list.Valid()
      ensures r.Ok? ==> (r.value <==> entry in list.entries)
      ensures r.Ok? && !r.value ==> !Mentions(list.entries, entry.cidr)
      ensures r.Ok? ==> forall other :: other in list.entries && other.cidr == entry.cidr ==> other == entry
      ensures list.reliable && !Taken(list.entries, entry) ==> r.Ok?
    {
      var out := list.GetEntries(PAGE);
      if out == Err(PrefixListNotFound) {
        return Ok(false);
      }
      if out.Err? {
        return Err(Failed);
      }
      for i := 0 to |out.value|
        invariant forall j :: 0 <= j < i ==> out.value[j].cidr != entry.cidr
      {
        if out.value[i].cidr == entry.cidr {
          if out.value[i].description != entry.description {
            return Err(Failed);
          }
          assert out.value[i] == entry;
          return Ok(true);
        }
      }
      r := Ok(false);
    }

    method CreateEntry(entry: Entry) returns (r: Result<()>)
      requires list.Valid() && !Mentions(list.entries, entry.cidr)
      modifies list
      ensures list.entries == old(list.entries) || list.entries == old(list.entries) + [entry]
      ensures r.Ok? ==> list.entries == old(list.entries) + [entry] && list.present
      ensures list.reliable && list.present && |old(list.entries)| < MAX_ENTRIES ==> r.Ok?
      ensures list.Valid()
    {
      var version := list.GetVersion();
      if version.Err? {
        return Err(Failed);
      }
      r := list.Add(version.value, entry);
    }

    method DeleteVersioned(entry: Entry) returns (r: Result<()>)
      requires list.Valid()
      modifies list
      ensures list.entries == old(list.entries) || list.entries == Without(old(list.entries), entry.cidr)
      ensures r.Ok? ==> list.entries == Without(old(list.entries), entry.cidr)
      ensures list.reliable && list.present ==> r.Ok?
      ensures list.Valid()
    {
      WithoutKeepsUnique(list.entries, entry.cidr);
      var version := list.GetVersion();
      if version.Err? {
        return Err(Failed);
      }
      r := list.Remove(version.value, entry.cidr);
      if r == Err(PrefixListNotFound) {
        r := Ok(());
      }
    }

    /** Adds the entry unless it is there; a CIDR that another cluster's entry holds is an error and stays as it is. */
    method ApplyEntry(entry: Entry) returns (r: Result<()>)
      requires list.Valid()
      modifies list
      ensures list.Valid()
      ensures list.entries == old(list.entries)
           || (!Mentions(old(list.entries), entry.cidr) && list.entries == old(list.entries) + [entry])
      ensures r.Ok? ==> entry in list.entries && isCidr(entry.cidr)
      ensures r.Ok? ==> old(Appliable(entry))
      ensures list.reliable && old(Appliable(entry)) ==> r.Ok?
    {
      if !isCidr(entry.cidr) {
        return Err(Failed);
      }
      var exists_ := EntryExists(entry);
      if exists_.Err? {
        return Err(exists_.error);
      }
      if exists_.value {
        return Ok(());
      }
      r := CreateEntry(entry);
    }

    /** Removes exactly the entry that names the cluster. */
    method DeleteEntry(entry: Entry) returns (r: Result<()>)
      requires list.Valid()
      modifies list
      ensures list.Valid()
      ensures forall e :: e in old(list.entries) && e != entry ==> e in list.entries
      ensures forall e :: e in list.entries ==> e in old(list.entries)
      ensures list.entries == old(list.entries) || list.entries == Without(old(list.entries), entry.cidr)
      ensures r.Ok? ==> !Mentions(list.entries, entry.cidr)
      ensures r.Ok? ==> isCidr(entry.cidr) && !Taken(old(list.entries), entry)
      ensures list.reliable && isCidr(entry.cidr) && !Taken(old(list.entries), entry) ==> r.Ok?
    {
      if !isCidr(entry.cidr) {
        return Err(Failed);
      }
      var exists_ := EntryExists(entry);
      if exists_.Err? {
        return Err(exists_.error);
      }
      if !exists_.value {
        return Ok(());
      }
      r := DeleteVersioned(entry);
    }
  }

  /** One reconcile on behalf of a cluster. */
  datatype Operation = Apply(cluster: string, cidr: string) | Delete(cluster: string, cidr: string)

  function EntryOf(op: Operation): Entry {
    Entry(op.cidr, DescriptionOf(op.cluster))
  }

  /** What one reconcile may do to the list. */
  ghost predicate Respects(op: Operation, before: seq<Entry>, after: seq<Entry>) {
    // an entry disappears only on behalf of the cluster its description names, and only for deletion
    && (forall e :: e in before && e !in after ==> op.Delete? && e == EntryOf(op))
    // an entry appears only under the name of the cluster it is for, on a CIDR nobody held
    && (forall e :: e in after && e !in before ==> op.Apply? && e == EntryOf(op) && !Mentions(before, op.cidr))
  }

  /** Any number of clusters, one reconcile at a time, any failures: one entry per CIDR throughout, and every change
      is on behalf of the cluster named in the changed entry. */
  method RunOperations(client: PrefixListClient, operations: seq<Operation>) returns (ghost lists: seq<seq<Entry>>)
    requires client.list.entries == []
    modifies client.list
    ensures client.list.Valid()
    ensures |lists| == |operations| + 1 && lists[0] == [] && lists[|operations|] == client.list.entries
    ensures forall i :: 0 <= i < |lists| ==> Owned(lists[i])
    ensures forall i :: 0 <= i < |operations| ==> Respects(operations[i], lists[i], lists[i + 1])
  {
    lists := [client.list.entries];
    for i := 0 to |operations|
      invariant client.list.Valid()
      invariant |lists| == i + 1 && lists[0] == [] && lists[i] == client.list.entries
      invariant forall j :: 0 <= j <= i ==> Owned(lists[j])
      invariant forall j :: 0 <= j < i ==> Respects(operations[j], lists[j], lists[j + 1])
    {
      var op := operations[i];
      if op.Apply? {
        var _ := client.ApplyEntry(EntryOf(op));
      } else {
        var _ := client.DeleteEntry(EntryOf(op));
      }
      assert Respects(op, lists[i], client.list.entries);
      lists := lists + [client.list.entries];
    }
  }

  /** No entry is ever taken from the cluster it names by another one. */
  lemma NobodyElseRemoves(op: Operation, before: seq<Entry>, after: seq<Entry>, owner: string, cidr: string)
    requires Respects(op, before, after)
    requires Entry(cidr, DescriptionOf(owner)) in before && Entry(cidr, DescriptionOf(owner)) !in after
    ensures op == Delete(owner, cidr)
  {
    DescriptionNamesCluster(owner, op.cluster);
  }

  /** Applying and then deleting restores a list that did not mention the CIDR, order included. */
  lemma ApplyThenDeleteRestores(entries: seq<Entry>, entry: Entry)
    requires !Mentions(entries, entry.cidr)
    ensures Without(entries + [entry], entry.cidr) == entries
  {
    WithoutAppended(entries, entry);
    WithoutMissing(entries, entry.cidr);
  }

  /** The same through the client: when both calls succeed, the list is what it was. */
  method ApplyThenDelete(client: PrefixListClient, entry: Entry) returns (restored: bool)
    requires client.list.Valid() && !Mentions(client.list.entries, entry.cidr)
    modifies client.list
    ensures restored ==> client.list.entries == old(client.list.entries)
    ensures restored ==> client.isCidr(entry.cidr)
  {
    var applied := client.ApplyEntry(entry);
    if applied.Err? {
      return false;
    }
    assert client.list.entries == old(client.list.entries) + [entry];
    var deleted := client.DeleteEntry(entry);
    if deleted.Err? {
      return false;
    }
    ApplyThenDeleteRestores(old(client.list.entries), entry);
    assert entry !in client.list.entries;
    restored := true;
  }
}
