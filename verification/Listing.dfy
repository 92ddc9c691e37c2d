/**
 Listings with a start marker: AWS returns the items at or after a marker, in its own order, up to a
 maximum. The order is a parameter; all that is used is that it is a strict total order on names and
 on the second component, names first.
 */
module Listing {

  datatype Key = Key(name: string, kind: string)

  datatype Order = Order(names: (string, string) -> bool, kinds: (string, string) -> bool)

  datatype Start = Beginning | FromName(name: string) | FromKey(key: Key)

  ghost predicate StrictTotal(lt: (string, string) -> bool) {
    && (forall a :: !lt(a, a))
    && (forall a, b :: a == b || lt(a, b) || lt(b, a))
    && (forall a, b, c :: lt(a, b) && lt(b, c) ==> lt(a, c))
  }

  ghost predicate Sound(o: Order) {
    StrictTotal(o.names) && StrictTotal(o.kinds)
  }

  predicate Before(o: Order, a: Key, b: Key) {
    o.names(a.name, b.name) || (a.name == b.name && o.kinds(a.kind, b.kind))
  }

  predicate AtOrAfter(o: Order, k: Key, start: Start) {
    match start
    case Beginning => true
    case FromName(name) => k.name == name || o.names(name, k.name)
    case FromKey(key) => k == key || Before(o, key, k)
  }

  /** What a listing promises: sorted, from the marker on, and nothing left out before its end. */
  ghost predicate IsPage(o: Order, keys: set<Key>, start: Start, max: nat, page: seq<Key>) {
    && |page| <= max
    && (forall i :: 0 <= i < |page| ==> page[i] in keys && AtOrAfter(o, page[i], start))
    && (forall i, j :: 0 <= i < j < |page| ==> Before(o, page[i], page[j]))
    && (forall k :: k in keys && AtOrAfter(o, k, start) && k !in page ==>
          |page| == max && forall i :: 0 <= i < |page| ==> Before(o, page[i], k))
  }

  lemma BeforeIsStrictTotal(o: Order, a: Key, b: Key, c: Key)
    requires Sound(o)
    ensures !Before(o, a, a)
    ensures a == b || Before(o, a, b) || Before(o, b, a)
    ensures !(Before(o, a, b) && Before(o, b, a))
    ensures Before(o, a, b) && Before(o, b, c) ==> Before(o, a, c)
  {
  }

  ghost predicate IsFirst(o: Order, keys: set<Key>, k: Key) {
    k in keys && forall other :: other in keys ==> other == k || Before(o, k, other)
  }

  lemma FirstOfMore(o: Order, rest: set<Key>, k: Key, x: Key)
    requires Sound(o) && IsFirst(o, rest, k)
    ensures IsFirst(o, rest + {x}, if Before(o, x, k) then x else k)
  {
    hide Before;
    hide StrictTotal;
    var first := if Before(o, x, k) then x else k;
    BeforeIsStrictTotal(o, x, k, k);
    forall other | other in rest + {x} ensures other == first || Before(o, first, other) {
      BeforeIsStrictTotal(o, first, k, other);
    }
  }

  /** A non-empty finite set of keys has a first one. */
  lemma {:induction false} FirstExists(o: Order, keys: set<Key>) returns (first: Key)
    requires Sound(o) && keys != {}
    ensures IsFirst(o, keys, first)
  {
    hide Before;
    hide StrictTotal;
    var x :| x in keys;
    var rest := keys - {x};
    if rest == {} {
      first := x;
      assert keys == {x};
    } else {
      var k := FirstExists(o, rest);
      FirstOfMore(o, rest, k, x);
      assert rest + {x} == keys;
      first := if Before(o, x, k) then x else k;
    }
  }

  /** How AWS produces a page. */
  method TakePage(o: Order, keys: set<Key>, start: Start, max: nat) returns (page: seq<Key>)
    requires Sound(o)
    ensures IsPage(o, keys, start, max, page)
  {
    page := [];
    var left := set k | k in keys && AtOrAfter(o, k, start);
    while |page| < max && left != {}
      invariant |page| <= max
      invariant forall i :: 0 <= i < |page| ==> page[i] in keys && AtOrAfter(o, page[i], start)
      invariant forall i, j :: 0 <= i < j < |page| ==> Before(o, page[i], page[j])
      invariant forall k :: k in keys && AtOrAfter(o, k, start) ==> k in page || k in left
      invariant forall k :: k in left ==> k in keys && AtOrAfter(o, k, start)
      invariant forall i, k :: 0 <= i < |page| && k in left ==> Before(o, page[i], k)
      decreases left
    {
      ghost var someFirst := FirstExists(o, left);
      var first :| first in left && forall other :: other in left ==> other == first || Before(o, first, other);
      page := page + [first];
      left := left - {first};
    }
  }

  /** A one-item listing from a key shows that key exactly when it exists. */
  lemma OneItemDecidesKey(o: Order, keys: set<Key>, key: Key, page: seq<Key>)
    requires Sound(o) && IsPage(o, keys, FromKey(key), 1, page)
    ensures key in keys <==> page == [key]
  {
    assert AtOrAfter(o, key, FromKey(key));
    if page != [] {
      BeforeIsStrictTotal(o, key, page[0], page[0]);
    }
  }

  /** Any key of the marker's name is on the page, unless the page is full of that name. */
  lemma NameComesFirst(o: Order, keys: set<Key>, name: string, max: nat, page: seq<Key>, k: Key)
    requires Sound(o) && IsPage(o, keys, FromName(name), max, page)
    requires k in keys && k.name == name
    ensures k in page || (|page| == max && forall i :: 0 <= i < |page| ==> page[i].name == name)
  {
    assert AtOrAfter(o, k, FromName(name));
    if k !in page {
      forall i | 0 <= i < |page| ensures page[i].name == name {
        assert Before(o, page[i], k) && AtOrAfter(o, page[i], FromName(name));
        assert !(o.names(name, page[i].name) && o.names(page[i].name, name));
      }
    }
  }

  /** A one-item listing from a name shows that name exactly when some key has it. */
  lemma OneItemDecidesName(o: Order, keys: set<Key>, name: string, page: seq<Key>)
    requires Sound(o) && IsPage(o, keys, FromName(name), 1, page)
    ensures (exists k :: k in keys && k.name == name) <==> page != [] && page[0].name == name
  {
    if k :| k in keys && k.name == name {
      NameComesFirst(o, keys, name, 1, page, k);
    }
  }

  /** A page has no key twice. */
  lemma PageHasNoDuplicates(o: Order, keys: set<Key>, start: Start, max: nat, page: seq<Key>, i: nat, j: nat)
    requires Sound(o) && IsPage(o, keys, start, max, page)
    requires i < j < |page|
    ensures page[i] != page[j]
  {
    BeforeIsStrictTotal(o, page[i], page[j], page[j]);
  }
}
