/** When a wildcard answers for a name (sections 2.2 and 3.3.1 of RFC 4592), over the record sets of one zone. */
module Synthesis {
  import opened Strings
  import opened Listing
  import opened Cloud

  /** The name itself, or a name above it in the tree: a suffix that begins at a label. */
  predicate AtOrAbove(a: string, name: string) {
    && |a| <= |name| && name[|name| - |a|..] == a
    && (|a| < |name| ==> name[|name| - |a| - 1] == '.')
  }

  /** A name exists if it has a record set, or if a name below it has one (an empty non-terminal). */
  predicate NameExists(sets: Sets, name: string) {
    exists k :: k in sets && AtOrAbove(name, k.name)
  }

  /** The existing name that matches the most labels of the query name. */
  ghost predicate ClosestEncloser(sets: Sets, query: string, encloser: string) {
    && AtOrAbove(encloser, query) && NameExists(sets, encloser)
    && forall other :: AtOrAbove(other, query) && NameExists(sets, other) ==> |other| <= |encloser|
  }

  /** The asterisk label right below the closest encloser, as Route 53 stores it. */
  function SourceOfSynthesis(encloser: string): string {
    ESCAPED_ASTERISK + "." + encloser
  }

  /** The record set is what an answer for the query name is made from. */
  ghost predicate Synthesizes(sets: Sets, query: string, key: Key) {
    && !NameExists(sets, query) && key in sets
    && exists encloser :: ClosestEncloser(sets, query, encloser) && key.name == SourceOfSynthesis(encloser)
  }

  /** A query name has one closest encloser. */
  lemma EncloserIsUnique(sets: Sets, query: string, a: string, b: string)
    requires ClosestEncloser(sets, query, a) && ClosestEncloser(sets, query, b)
    ensures a == b
  {
  }

  /** A name with a record set of its own is answered from it, never by a wildcard. */
  lemma OwnRecordIsNotSynthesized(sets: Sets, k: Key, key: Key)
    requires k in sets
    ensures !Synthesizes(sets, k.name, key)
  {
    assert AtOrAbove(k.name, k.name);
  }

  /** The wildcard right below an existing name answers for a name below that one if and only if nothing exists in
      between, the name itself and what is below it included. */
  lemma WildcardAnswersIff(sets: Sets, zone: string, query: string, key: Key)
    requires NameExists(sets, zone) && AtOrAbove(zone, query) && |zone| < |query|
    requires key in sets && key.name == SourceOfSynthesis(zone)
    ensures Synthesizes(sets, query, key) <==>
      forall a :: AtOrAbove(a, query) && |zone| < |a| ==> !NameExists(sets, a)
  {
    if Synthesizes(sets, query, key) {
      var encloser :| ClosestEncloser(sets, query, encloser) && key.name == SourceOfSynthesis(encloser);
      assert encloser == SourceOfSynthesis(encloser)[5..] && zone == SourceOfSynthesis(zone)[5..];
    } else if forall a :: AtOrAbove(a, query) && |zone| < |a| ==> !NameExists(sets, a) {
      assert AtOrAbove(query, query);
      assert ClosestEncloser(sets, query, zone);
    }
  }

  /** A name put below another one. */
  lemma BelowIsBelow(host: string, zone: string)
    ensures AtOrAbove(zone, host + "." + zone)
  {
    var name := host + "." + zone;
    assert name[|name| - |zone|..] == zone && name[|name| - |zone| - 1] == '.';
  }
}
