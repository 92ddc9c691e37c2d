/** Associating another account's resolver rules with a cluster's VPC. */
module ResolverRules {
  import opened Results
  import opened Addresses

  /** A rule as AWS lists it, and as the operator keeps it. */
  datatype ListedRule = ListedRule(arn: string, id: string, name: string, ownerId: string, targetIps: seq<string>)
  datatype Rule = Rule(arn: string, id: string, name: string, ips: seq<string>)

  /** The parsers of Go's net library; an address is 32 or 128 bits, a network is masked. */
  datatype Parsers = Parsers(ip: string -> Option<Bits>, cidr: string -> Option<Network>)

  ghost predicate Sound(p: Parsers) {
    forall s :: p.cidr(s).Some? ==> WellFormed(p.cidr(s).value)
  }

  /** One page of a listing; a missing or empty token ends it. */
  datatype Page<T> = Page(items: seq<T>, nextToken: Option<string>)

  predicate More<T>(p: Page<T>) {
    p.nextToken.Some? && p.nextToken.value != ""
  }

  function Concat<T>(chunks: seq<seq<T>>): seq<T> {
    if chunks == [] then [] else Concat(chunks[..|chunks| - 1]) + chunks[|chunks| - 1]
  }

  /** A paginated AWS listing. Any page may be empty, the last one may carry an empty token, and any request may fail. */
  class PagedListing<T(0)> {
    const chunks: seq<seq<T>>    // at least one page
    const tokens: seq<string>    // tokens[i] asks for page i + 1
    const emptyLastToken: bool
    const reliable: bool         // no request fails

    constructor (chunks: seq<seq<T>>, tokens: seq<string>, emptyLastToken: bool, reliable: bool)
      requires |chunks| == |tokens| + 1 && "" !in tokens
      requires forall i, j :: 0 <= i < j < |tokens| ==> tokens[i] != tokens[j]
      ensures this.chunks == chunks && this.tokens == tokens && this.reliable == reliable && Valid()
    {
      this.chunks := chunks;
      this.tokens := tokens;
      this.emptyLastToken := emptyLastToken;
      this.reliable := reliable;
    }

    ghost predicate Valid() {
      && |chunks| == |tokens| + 1 && "" !in tokens
      && forall i, j :: 0 <= i < j < |tokens| ==> tokens[i] != tokens[j]
    }

    function PageAt(i: nat): Page<T>
      requires Valid() && i < |chunks|
    {
      Page(chunks[i], if i < |tokens| then Some(tokens[i]) else if emptyLastToken then Some("") else None)
    }

    method List(token: Option<string>) returns (r: Result<Page<T>>)
      requires Valid() && (token.Some? ==> token.value in tokens)
      ensures r.Ok? && token.None? ==> r.value == PageAt(0)
      ensures r.Ok? && token.Some? ==> forall i :: 0 <= i < |tokens| && tokens[i] == token.value ==> r.value == PageAt(i + 1)
      ensures reliable ==> r.Ok?
    {
      var fails: bool := *;
      if fails && !reliable {
        return Err(Failed);
      }
      if token.None? {
        return Ok(PageAt(0));
      }
      var i :| 0 <= i < |tokens| && tokens[i] == token.value;
      r := Ok(PageAt(i + 1));
    }

    /** The token loop both listings of the resolver client run. */
    method ListAll() returns (r: Result<seq<T>>)
      requires Valid()
      ensures r.Ok? ==> r.value == Concat(chunks)
      ensures reliable ==> r.Ok?
    {
      var page := List(None);
      if page.Err? {
        return Err(page.error);
      }
      var all := page.value.items;
      ghost var at := 0;
      assert chunks[..1][..0] == [] && Concat(chunks[..1]) == [] + chunks[0];
      while More(page.value)
        invariant page.Ok? && at < |chunks| && page.value == PageAt(at)
        invariant all == Concat(chunks[..at + 1])
        decreases |chunks| - at
      {
        assert at < |tokens|;
        page := List(page.value.nextToken);
        if page.Err? {
          return Err(page.error);
        }
        at := at + 1;
        assert page.value == PageAt(at);
        assert chunks[..at + 1][..at] == chunks[..at];
        all := all + page.value.items;
      }
      assert chunks[..at + 1] == chunks;
      r := Ok(all);
    }
  }

  function Built(rule: ListedRule): Rule {
    Rule(rule.arn, rule.id, rule.name, rule.targetIps)
  }

  /** The rules of one account, or all rules when no account is given, in order. */
  function OwnedBy(rules: seq<ListedRule>, account: string): seq<Rule> {
    if rules == [] then []
    else
      var last := rules[|rules| - 1];
      OwnedBy(rules[..|rules| - 1], account) + (if account == "" || last.ownerId == account then [Built(last)] else [])
  }

  predicate IsOwnedBy(rule: ListedRule, account: string) {
    account == "" || rule.ownerId == account
  }

  /** These positions are increasing, are those of the account's rules, and none of them is left out. */
  ghost predicate PositionsOf(rules: seq<ListedRule>, account: string, at: seq<nat>) {
    && (forall i, j :: 0 <= i < j < |at| ==> at[i] < at[j])
    && (forall i :: 0 <= i < |at| ==> at[i] < |rules| && IsOwnedBy(rules[at[i]], account))
    && (forall k :: 0 <= k < |rules| && IsOwnedBy(rules[k], account) ==> k in at)
  }

  /** The kept rule has the listed one's ARN, id, name and target addresses. */
  predicate Keeps(rule: Rule, listed: ListedRule) {
    rule.arn == listed.arn && rule.id == listed.id && rule.name == listed.name && rule.ips == listed.targetIps
  }

  ghost predicate RulesAt(rules: seq<ListedRule>, at: seq<nat>, picked: seq<Rule>) {
    |picked| == |at| && forall i :: 0 <= i < |at| ==> at[i] < |rules| && Keeps(picked[i], rules[at[i]])
  }

  /** The wanted rules are exactly the account's, in the order they are listed in. */
  lemma {:induction false} OwnedByIsExact(rules: seq<ListedRule>, account: string) returns (at: seq<nat>)
    ensures PositionsOf(rules, account, at) && RulesAt(rules, at, OwnedBy(rules, account))
    decreases |rules|
  {
    at := [];
    if rules != [] {
      var last := |rules| - 1;
      OwnedByOneMore(rules, account);
      hide *;
      at := OwnedByIsExact(rules[..last], account);
      OneMorePosition(rules, account, at);
      OneMoreRule(rules, at, OwnedBy(rules[..last], account));
      if IsOwnedBy(rules[last], account) {
        at := at + [last];
      }
    }
  }

  lemma OwnedByOneMore(rules: seq<ListedRule>, account: string)
    requires rules != []
    ensures
      var last := |rules| - 1;
      OwnedBy(rules, account)
      == OwnedBy(rules[..last], account) + if IsOwnedBy(rules[last], account) then [Built(rules[last])] else []
  {
  }

  lemma OneMorePosition(rules: seq<ListedRule>, account: string, at: seq<nat>)
    requires rules != [] && PositionsOf(rules[..|rules| - 1], account, at)
    ensures PositionsOf(rules, account, if IsOwnedBy(rules[|rules| - 1], account) then at + [|rules| - 1] else at)
  {
    hide IsOwnedBy;
    var last := |rules| - 1;
    var more := if IsOwnedBy(rules[last], account) then at + [last] else at;
    assert forall i :: 0 <= i < |at| ==> rules[..last][at[i]] == rules[at[i]];
    forall k | 0 <= k < |rules| && IsOwnedBy(rules[k], account) ensures k in more {
      if k < last {
        assert rules[..last][k] == rules[k];
        assert k in at;
      }
    }
  }

  lemma OneMoreRule(rules: seq<ListedRule>, at: seq<nat>, picked: seq<Rule>)
    requires rules != [] && RulesAt(rules[..|rules| - 1], at, picked)
    ensures RulesAt(rules, at, picked) && RulesAt(rules, at + [|rules| - 1], picked + [Built(rules[|rules| - 1])])
  {
    assert Keeps(Built(rules[|rules| - 1]), rules[|rules| - 1]);
    hide Keeps;
    hide Built;
  }

  method FindResolverRulesByAccount(listing: PagedListing<ListedRule>, account: string) returns (r: Result<seq<Rule>>)
    requires listing.Valid()
    ensures r.Ok? ==> r.value == OwnedBy(Concat(listing.chunks), account)
    ensures listing.reliable ==> r.Ok?
  {
    var unfiltered := listing.ListAll();
    if unfiltered.Err? {
      return Err(unfiltered.error);
    }
    var found: seq<Rule> := [];
    for i := 0 to |unfiltered.value|
      invariant found == OwnedBy(unfiltered.value[..i], account)
    {
      assert unfiltered.value[..i + 1][..i] == unfiltered.value[..i];
      if account == "" || unfiltered.value[i].ownerId == account {
        found := found + [Built(unfiltered.value[i])];
      }
    }
    assert unfiltered.value[..|unfiltered.value|] == unfiltered.value;
    r := Ok(found);
  }

  /** Some target address lies in the range; an unparsable one, or one of the other family, does not. */
  predicate Targets(p: Parsers, rule: Rule, network: Network)
    requires WellFormed(network)
  {
    exists i :: 0 <= i < |rule.ips| && InNetwork(p, rule.ips[i], network)
  }

  predicate InNetwork(p: Parsers, ip: string, network: Network)
    requires WellFormed(network)
  {
    p.ip(ip).Some? && Contains(network, p.ip(ip).value)
  }

  method TargetIPsBelongToCidr(p: Parsers, rule: Rule, vpcCidr: string) returns (r: Result<bool>)
    requires Sound(p)
    ensures r.Ok? <==> p.cidr(vpcCidr).Some?
    ensures r.Ok? ==> (r.value <==> Targets(p, rule, p.cidr(vpcCidr).value))
  {
    var network := p.cidr(vpcCidr);
    if network.None? {
      return Err(Failed);
    }
    for i := 0 to |rule.ips|
      invariant forall j :: 0 <= j < i ==> !InNetwork(p, rule.ips[j], network.value)
    {
      if InNetwork(p, rule.ips[i], network.value) {
        return Ok(true);
      }
    }
    r := Ok(false);
  }

  /** What the pass has to associate: in order, no target in the VPC, not associated yet. */
  function ToAssociate(p: Parsers, rules: seq<Rule>, network: Network, associated: seq<string>): seq<Rule>
    requires WellFormed(network)
  {
    if rules == [] then []
    else
      var last := rules[|rules| - 1];
      ToAssociate(p, rules[..|rules| - 1], network, associated)
      + (if Targets(p, last, network) || last.id in associated then [] else [last])
  }

  /** The resolver service as the pass sees it: every attempt is recorded, whether it succeeds or not. */
  class Resolver {
    var attempts: seq<Rule>

    constructor ()
      ensures attempts == []
    {
      attempts := [];
    }

    method Associate(rule: Rule) returns (ok: bool)
      modifies this
      ensures attempts == old(attempts) + [rule]
    {
      attempts := attempts + [rule];
      ok := *;
    }
  }

  method AlreadyAssociated(ids: seq<string>, id: string) returns (found: bool)
    ensures found <==> id in ids
  {
    for i := 0 to |ids|
      invariant id !in ids[..i]
    {
      if ids[i] == id {
        return true;
      }
    }
    assert ids[..|ids|] == ids;
    found := false;
  }

  /** The pass over the account's rules. A listing that fails, or a range that does not parse while there is a rule to
      look at, ends it before any attempt; a failed association does not. */
  method AssociateRulesWithVpc(p: Parsers, rules: PagedListing<ListedRule>, associations: PagedListing<string>,
                               account: string, vpcCidr: string, resolver: Resolver)
    returns (r: Result<()>)
    requires Sound(p) && rules.Valid() && associations.Valid()
    modifies resolver
    ensures r.Ok? && p.cidr(vpcCidr).Some? ==>
      resolver.attempts == old(resolver.attempts)
        + ToAssociate(p, OwnedBy(Concat(rules.chunks), account), p.cidr(vpcCidr).value, Concat(associations.chunks))
    ensures r.Ok? && p.cidr(vpcCidr).None? ==> OwnedBy(Concat(rules.chunks), account) == []
    ensures r.Err? || p.cidr(vpcCidr).None? ==> resolver.attempts == old(resolver.attempts)
    ensures rules.reliable && associations.reliable ==>
      (r.Ok? <==> p.cidr(vpcCidr).Some? || OwnedBy(Concat(rules.chunks), account) == [])
  {
    var wanted := FindResolverRulesByAccount(rules, account);
    if wanted.Err? {
      return Err(wanted.error);
    }
    var associated := associations.ListAll();
    if associated.Err? {
      return Err(associated.error);
    }
    r := AssociateAll(p, wanted.value, associated.value, vpcCidr, resolver);
  }

  method AssociateAll(p: Parsers, rules: seq<Rule>, associated: seq<string>, vpcCidr: string, resolver: Resolver)
    returns (r: Result<()>)
    requires Sound(p)
    modifies resolver
    ensures r.Ok? <==> p.cidr(vpcCidr).Some? || rules == []
    ensures p.cidr(vpcCidr).Some? ==>
      resolver.attempts == old(resolver.attempts) + ToAssociate(p, rules, p.cidr(vpcCidr).value, associated)
    ensures p.cidr(vpcCidr).None? ==> resolver.attempts == old(resolver.attempts)
  {
    for i := 0 to |rules|
      invariant p.cidr(vpcCidr).None? ==> i == 0 && resolver.attempts == old(resolver.attempts)
      invariant p.cidr(vpcCidr).Some? ==>
        resolver.attempts == old(resolver.attempts) + ToAssociate(p, rules[..i], p.cidr(vpcCidr).value, associated)
    {
      assert rules[..i + 1][..i] == rules[..i];
      var inside := TargetIPsBelongToCidr(p, rules[i], vpcCidr);
      if inside.Err? {
        return Err(inside.error);
      }
      if inside.value {
        continue;
      }
      var known := AlreadyAssociated(associated, rules[i].id);
      if known {
        continue;
      }
      var _ := resolver.Associate(rules[i]);
    }
    assert rules[..|rules|] == rules;
    r := Ok(());
  }

  /** The parsed address is of the range's family and in [base, base + 2^(width - p)). */
  ghost predicate InRange(network: Network, ip: Option<Bits>)
    requires WellFormed(network)
  {
    && ip.Some? && |ip.value| == |network.address|
    && Value(network.address) <= Value(ip.value) < Value(network.address) + Pow2(|ip.value| - network.ones)
  }

  /** Exactly the wanted rules are attempted: those without a target address in the range that are not associated yet. */
  lemma {:induction false} AttemptedIff(p: Parsers, rules: seq<Rule>, network: Network, associated: seq<string>, rule: Rule)
    requires WellFormed(network)
    ensures rule in ToAssociate(p, rules, network, associated) <==>
      && rule in rules
      && rule.id !in associated
      && (forall ip :: ip in rule.ips ==> !InRange(network, p.ip(ip)))
  {
    if rules != [] {
      var init := rules[..|rules| - 1];
      assert rules == init + [rules[|rules| - 1]];
      AttemptedIff(p, init, network, associated, rule);
      TargetsIff(p, rule, network);
    }
  }

  lemma TargetsIff(p: Parsers, rule: Rule, network: Network)
    requires WellFormed(network)
    ensures Targets(p, rule, network) <==> exists ip :: ip in rule.ips && InRange(network, p.ip(ip))
  {
    forall i | 0 <= i < |rule.ips| ensures InNetwork(p, rule.ips[i], network) <==> InRange(network, p.ip(rule.ips[i])) {
      if p.ip(rule.ips[i]).Some? {
        ContainsIffInRange(network, p.ip(rule.ips[i]).value);
      }
    }
  }
}
