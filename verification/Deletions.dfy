/** Removing record sets: the batch that empties a page of a zone, and when a one-item listing finds the right set. */
module Deletions {
  import opened Results
  import opened Strings
  import opened Listing
  import opened Cloud
  import opened CacheKeys
  import opened Upserts

  predicate IsKept(kind: string) {
    kind == SOA || kind == NS
  }

  function DeletionOf(set_: RecordSet): Change {
    Change(Delete, set_.key.name, set_.key.kind, set_.data)
  }

  /** What one pass deletes: everything on the page but NS and SOA. */
  function Deletions(page: seq<RecordSet>): seq<Change> {
    if page == [] then []
    else
      var last := page[|page| - 1];
      Deletions(page[..|page| - 1]) + if IsKept(last.key.kind) then [] else [DeletionOf(last)]
  }

  function Doomed(page: seq<RecordSet>): set<Key> {
    set i | 0 <= i < |page| && !IsKept(page[i].key.kind) :: page[i].key
  }

  method DeletionsOf(page: seq<RecordSet>) returns (changes: seq<Change>)
    ensures changes == Deletions(page)
  {
    changes := [];
    for i := 0 to |page|
      invariant changes == Deletions(page[..i])
    {
      assert page[..i + 1][..i] == page[..i];
      if !IsKept(page[i].key.kind) {
        changes := changes + [DeletionOf(page[i])];
      }
    }
    assert page[..|page|] == page;
  }

  ghost predicate Present(page: seq<RecordSet>, sets: Sets) {
    && (forall i :: 0 <= i < |page| ==> page[i].key in sets && page[i].data == sets[page[i].key])
    && (forall i, j :: 0 <= i < j < |page| ==> page[i].key != page[j].key)
  }

  lemma PageIsPresent(o: Order, sets: Sets, start: Start, max: nat, page: seq<RecordSet>)
    requires Sound(o) && IsSetPage(o, sets, start, max, page)
    ensures Present(page, sets)
  {
    forall i, j | 0 <= i < j < |page| ensures page[i].key != page[j].key {
      PageHasNoDuplicates(o, sets.Keys, start, max, Keys(page), i, j);
    }
  }

  lemma DoomedGrows(page: seq<RecordSet>)
    requires page != []
    ensures
      var last := page[|page| - 1];
      Doomed(page) == Doomed(page[..|page| - 1]) + if IsKept(last.key.kind) then {} else {last.key}
  {
    var init, last := page[..|page| - 1], page[|page| - 1];
    assert forall i :: 0 <= i < |init| ==> init[i] == page[i];
    forall k | k in Doomed(page) ensures k in Doomed(init) || (k == last.key && !IsKept(last.key.kind)) {
      var i :| 0 <= i < |page| && !IsKept(page[i].key.kind) && page[i].key == k;
      if i < |init| {
        assert init[i].key == k;
      }
    }
    forall k | k in Doomed(init) ensures k in Doomed(page) {
      var i :| 0 <= i < |init| && !IsKept(init[i].key.kind) && init[i].key == k;
      assert page[i].key == k;
    }
  }

  lemma LastIsFresh(page: seq<RecordSet>, sets: Sets)
    requires page != [] && Present(page, sets)
    ensures Present(page[..|page| - 1], sets)
    ensures page[|page| - 1].key !in Doomed(page[..|page| - 1])
  {
    var init := page[..|page| - 1];
    assert forall i :: 0 <= i < |init| ==> init[i] == page[i];
  }

  /** The batch of one pass applies, and removes exactly what the page showed besides NS and SOA. */
  lemma {:induction false} DeletionsApply(zoneName: string, sets: Sets, page: seq<RecordSet>)
    requires ValidSets(sets) && Present(page, sets)
    ensures ApplyAll(zoneName, sets, Deletions(page)) == Some(sets - Doomed(page))
    decreases |page|
  {
    hide Canonical;
    hide Doomed;
    if page == [] {
      assert Doomed(page) == {} by { NothingDoomed(); }
      assert sets - {} == sets;
    } else {
      var init, last := page[..|page| - 1], page[|page| - 1];
      LastIsFresh(page, sets);
      DeletionsApply(zoneName, sets, init);
      DoomedGrows(page);
      if IsKept(last.key.kind) {
        assert Doomed(page) == Doomed(init);
        assert Deletions(page) == Deletions(init) by { assert Deletions(init) + [] == Deletions(init); }
      } else {
        OneMoreDeletion(zoneName, sets, Deletions(init), Doomed(init), last);
        assert Doomed(page) == Doomed(init) + {last.key};
        assert Deletions(page) == Deletions(init) + [DeletionOf(last)];
      }
    }
  }

  lemma NothingDoomed()
    ensures Doomed([]) == {}
  {
  }

  lemma OneMoreDeletion(zoneName: string, sets: Sets, changes: seq<Change>, gone: set<Key>, last: RecordSet)
    requires ValidSets(sets) && last.key in sets && sets[last.key] == last.data && !IsKept(last.key.kind)
    requires last.key !in gone && ApplyAll(zoneName, sets, changes) == Some(sets - gone)
    ensures ApplyAll(zoneName, sets, changes + [DeletionOf(last)]) == Some(sets - (gone + {last.key}))
  {
    hide Canonical;
    var c := DeletionOf(last);
    assert StableName(last.key.name) && KeyOf(c) == last.key;
    assert (changes + [c])[..|changes|] == changes;
    assert (sets - gone) - {last.key} == sets - (gone + {last.key});
  }

  lemma {:induction false} NothingToDelete(page: seq<RecordSet>)
    ensures Deletions(page) == [] <==> Doomed(page) == {}
    decreases |page|
  {
    if page != [] {
      NothingToDelete(page[..|page| - 1]);
      DoomedGrows(page);
    }
  }

  // ---- deleting one record set ----

  function RecordType(kind: string): string {
    if kind == ALIAS then A else kind
  }

  /** The set a record is stored as. */
  function StoredKey(name: string, kind: string): Key {
    Key(Canonical(name), RecordType(kind))
  }

  /** The comparison with the listed name succeeds on the stored form of this name. */
  predicate Recognised(name: string) {
    Unescape(Canonical(name)) == Dotted(name)
  }

  /** Lower case, and no backslash: all that is needed to recognise one's own record. */
  lemma LowerCaseIsRecognised(name: string)
    requires '\\' !in name && Lower(name) == name
    ensures Recognised(name)
  {
    assert Lower(Dotted(name)) == Dotted(name);
    assert '\\' !in Dotted(name);
    CanonicalIsStable(name);
    UnescapedNameMatchesIff(Canonical(name), name);
  }

  /** A listed name that matches can only be the record's own stored form. */
  lemma MatchIsOwn(stored: string, name: string)
    requires StableName(stored) && Unescape(stored) == Dotted(name)
    ensures stored == Canonical(name)
  {
    CanonicalIsStable(stored);
    assert '*' !in stored;
    UnescapedNameMatchesIff(stored, name);
    var d := Dotted(name);
    EscapedLower(d);
    assert Lower(stored) == stored by {
      EscapeOfLowerIsLower(Dotted(stored));
    }
    UnescapeOfLowerIsLower(stored);
    assert Lower(d) == d;
  }

  lemma EscapedLower(d: string)
    ensures Lower(d) == d ==> Escape(Lower(d)) == Escape(d)
  {
  }

  lemma {:induction false} UnescapeOfLowerIsLower(s: string)
    requires Lower(s) == s
    ensures Lower(Unescape(s)) == Unescape(s)
    decreases |s|
  {
    if s == "" {
    } else if ESCAPED_ASTERISK <= s {
      assert Lower(s[4..]) == Lower(s)[4..];
      UnescapeOfLowerIsLower(s[4..]);
      assert Lower("*" + Unescape(s[4..])) == "*" + Lower(Unescape(s[4..]));
    } else {
      assert Lower(s[1..]) == Lower(s)[1..];
      UnescapeOfLowerIsLower(s[1..]);
      assert LowerChar(s[0]) == Lower(s)[0] == s[0];
      assert Lower([s[0]] + Unescape(s[1..])) == [s[0]] + Lower(Unescape(s[1..]));
    }
  }

  /** Over any sorted zone, the one listed item is the wanted set exactly when the zone has it; a listed item that
      matches the wanted name and type is never another set. */
  lemma OneItemFindsTheSet(o: Order, sets: Sets, name: string, kind: string, page: seq<RecordSet>)
    requires Sound(o) && ValidSets(sets)
    requires IsSetPage(o, sets, FromKey(StoredKey(name, kind)), 1, page)
    ensures |page| <= 1
    ensures |page| == 1 ==> page[0].key in sets && sets[page[0].key] == page[0].data
    ensures StoredKey(name, kind) in sets <==> |page| == 1 && page[0].key == StoredKey(name, kind)
    ensures |page| == 1 && Unescape(page[0].key.name) == Dotted(name) && page[0].key.kind == RecordType(kind) ==>
      page[0].key == StoredKey(name, kind)
  {
    hide Canonical;
    OneItemDecidesKey(o, sets.Keys, StoredKey(name, kind), Keys(page));
    if |page| == 1 {
      assert Keys(page)[0] == page[0].key;
      assert page[0].key in sets && StableName(page[0].key.name);
      if Unescape(page[0].key.name) == Dotted(name) {
        MatchIsOwn(page[0].key.name, name);
      }
      assert Keys(page) == [page[0].key];
    }
  }

  lemma StableIsNormal(stored: string)
    requires StableName(stored)
    ensures NormalizeDnsName(stored) == stored && '*' !in stored
  {
    CanonicalIsStable(stored);
    EscapeOfLowerIsLower(Dotted(stored));
    assert Lower(stored) == stored && Dotted(stored) == stored;
    LowerDotted(stored);
  }

  lemma LowerDotted(name: string)
    ensures NormalizeDnsName(name) == Lower(Dotted(name))
  {
  }

  /** Comparing normalised names also finds only the stored form, unless the name has an asterisk. */
  lemma NormalMatchIsOwn(stored: string, name: string)
    requires StableName(stored)
    ensures NormalizeDnsName(stored) == NormalizeDnsName(name) ==> stored == Canonical(name)
    ensures '*' !in name && stored == Canonical(name) ==> NormalizeDnsName(stored) == NormalizeDnsName(name)
  {
    StableIsNormal(stored);
    LowerDotted(name);
    var n := NormalizeDnsName(name);
    hide NormalizeDnsName;
    hide Dotted;
    if stored == n {
      EscapeKeepsPlainText(n);
    } else if '*' !in name {
      NoAsteriskWhenLower(name);
      EscapeKeepsPlainText(n);
    }
  }

  lemma NoAsteriskWhenLower(name: string)
    requires '*' !in name
    ensures '*' !in Lower(Dotted(name))
  {
  }

  /** Deleting a set as it was listed removes it, unless it is the zone's own NS or SOA. */
  lemma OneDeletion(st: State, id: string, listed: RecordSet)
    requires ValidState(st) && id in st.zones
    requires listed.key in st.zones[id].sets && st.zones[id].sets[listed.key] == listed.data
    ensures
      Changed(st, id, [DeletionOf(listed)])
      == if IsApex(st.zones[id].name, listed.key) then None else Some(WithSets(st, id, st.zones[id].sets - {listed.key}))
  {
    hide Canonical;
    var z, c := st.zones[id], DeletionOf(listed);
    assert ValidZone(st, id) && StableName(listed.key.name) && KeyOf(c) == listed.key;
    assert [c][..0] == [];
    assert ApplyAll(z.name, z.sets, [c]) == ApplyChange(z.name, z.sets, c);
  }

  /** What a deletion may have done to a zone: nothing, or taken away this one set. */
  ghost predicate AtMostRemoves(before: State, after: State, id: string, key: Key) {
    || after == before
    || (id in before.zones && key in before.zones[id].sets && after == WithSets(before, id, before.zones[id].sets - {key}))
  }

  /** What one pass of emptying a zone does. */
  ghost predicate Emptied(before: State, after: State, id: string, page: seq<RecordSet>) {
    id in before.zones && after == WithSets(before, id, before.zones[id].sets - Doomed(page))
  }

  lemma PassApplies(st: State, id: string, page: seq<RecordSet>)
    requires ValidState(st) && id in st.zones && Present(page, st.zones[id].sets)
    ensures Deletions(page) == [] ==> Emptied(st, st, id, page)
    ensures Deletions(page) != [] ==>
      Changed(st, id, Deletions(page)).Some? && Emptied(st, Changed(st, id, Deletions(page)).value, id, page)
  {
    hide Canonical;
    hide Present;
    hide Deletions;
    hide Doomed;
    hide ApplyAll;
    var z := st.zones[id];
    assert ValidZone(st, id);
    DeletionsApply(z.name, z.sets, page);
    if Deletions(page) == [] {
      NothingToDelete(page);
      assert z.sets - {} == z.sets;
      assert st.zones == st.zones[id := z];
    }
  }
}
