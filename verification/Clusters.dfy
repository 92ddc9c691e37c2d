/** A workload cluster as the DNS code sees it, and the names derived from it. */
module Clusters {
  import opened Results
  import opened Strings

  datatype Cluster = Cluster(
    name: string,
    region: string,
    isEKS: bool,
    isDnsModePrivate: bool,
    controlPlaneEndpoint: string,
    wildcardCNAMETarget: string,
    iamRoleARN: string,
    mcIAMRoleARN: string,
    delegationIAMRoleARN: string,
    customHostedZoneName: string,
    baseDomain: string,
    additionalTags: map<string, string>)

  /** Every zone is tagged with the cluster it belongs to; the cluster's own tags win. */
  function TagsForHostedZone(c: Cluster): (tags: map<string, string>)
    ensures tags != map[]
    ensures forall k :: k in c.additionalTags ==> k in tags && tags[k] == c.additionalTags[k]
    ensures "Name" in tags && ("Name" !in c.additionalTags ==> tags["Name"] == c.name)
    ensures
      var owner := "sigs.k8s.io/cluster-api-provider-aws/cluster/" + c.name;
      owner in tags && (owner !in c.additionalTags && owner != "Name" ==> tags[owner] == "owned")
  {
    var tags :=
      map["Name" := c.name,
          "sigs.k8s.io/cluster-api-provider-aws/cluster/" + c.name := "owned",
          "sigs.k8s.io/cluster-api-provider-aws/role" := "common"];
    assert "Name" in tags + c.additionalTags;
    tags + c.additionalTags
  }

  function HostedZoneName(defaultDomain: string, c: Cluster): string {
    if c.customHostedZoneName != "" then c.customHostedZoneName
    else c.name + "." + if c.baseDomain != "" then c.baseDomain else defaultDomain
  }

  /** What follows the first dot. */
  function AfterFirstDot(s: string): Option<string> {
    if s == "" then None else if s[0] == '.' then Some(s[1..]) else AfterFirstDot(s[1..])
  }

  function ParentHostedZoneName(defaultDomain: string, c: Cluster): string {
    if c.baseDomain != "" then c.baseDomain
    else if c.customHostedZoneName != "" then
      match AfterFirstDot(c.customHostedZoneName)
      case Some(parent) => if '.' in parent then parent else ""
      case None => ""
    else defaultDomain
  }

  /** The role of the delegation, or else that of the management cluster. */
  function DelegationRoleARN(c: Cluster): (arn: string)
    ensures arn == c.delegationIAMRoleARN || (c.delegationIAMRoleARN == "" && arn == c.mcIAMRoleARN)
  {
    if c.delegationIAMRoleARN != "" then c.delegationIAMRoleARN else c.mcIAMRoleARN
  }

  predicate IsAWSChinaRegion(region: string): (china: bool)
    ensures china <==> exists rest :: region == "cn-" + rest
  {
    assert "cn-" <= region ==> region == "cn-" + region[3..];
    "cn-" <= region
  }

  function WildcardTarget(defaultDomain: string, c: Cluster): string {
    (if c.wildcardCNAMETarget != "" then c.wildcardCNAMETarget else "ingress") + "." + HostedZoneName(defaultDomain, c)
  }

  function WildcardName(defaultDomain: string, c: Cluster): string {
    "*." + HostedZoneName(defaultDomain, c)
  }

  function ApiName(defaultDomain: string, c: Cluster): string {
    "api." + HostedZoneName(defaultDomain, c)
  }

  function IrsaName(defaultDomain: string, c: Cluster): string {
    "irsa." + HostedZoneName(defaultDomain, c)
  }

  // ---- where a zone is delegated from ----

  predicate Below(zone: string, parent: string, host: string) {
    zone == host + "." + parent
  }

  lemma {:induction false} AfterFirstDotIsSuffix(s: string)
    ensures AfterFirstDot(s).Some? ==> exists host :: '.' !in host && Below(s, AfterFirstDot(s).value, host)
    ensures AfterFirstDot(s).None? <==> '.' !in s
  {
    if s != "" && s[0] == '.' {
      assert s == "" + "." + s[1..];
      assert Below(s, s[1..], "");
    } else if s != "" {
      AfterFirstDotIsSuffix(s[1..]);
      assert s == [s[0]] + s[1..];
      if AfterFirstDot(s).Some? {
        var rest :| '.' !in rest && Below(s[1..], AfterFirstDot(s[1..]).value, rest);
        assert Below(s, AfterFirstDot(s).value, [s[0]] + rest);
      }
    }
  }

  /** Unless a custom name and a base domain are both set, a zone is delegated from a zone right above it. */
  lemma ParentIsAbove(defaultDomain: string, c: Cluster)
    requires c.customHostedZoneName == "" || c.baseDomain == ""
    ensures
      var zone, parent := HostedZoneName(defaultDomain, c), ParentHostedZoneName(defaultDomain, c);
      parent == "" || exists host :: Below(zone, parent, host)
  {
    if c.customHostedZoneName == "" {
      var parent := ParentHostedZoneName(defaultDomain, c);
      assert Below(HostedZoneName(defaultDomain, c), parent, c.name);
    } else {
      var rest := AfterFirstDot(c.customHostedZoneName);
      AfterFirstDotIsSuffix(c.customHostedZoneName);
      if rest.Some? {
        var host :| '.' !in host && Below(c.customHostedZoneName, rest.value, host);
        var zone, parent := HostedZoneName(defaultDomain, c), ParentHostedZoneName(defaultDomain, c);
        assert parent != "" ==> Below(zone, parent, host);
      }
    }
  }

  /** The name is made of these first two labels and the rest. */
  predicate StartsWith(name: string, a: string, b: string, rest: string) {
    '.' !in a && '.' !in b && name == a + ("." + (b + ("." + rest)))
  }

  /** A custom name is delegated if and only if it has at least three labels. */
  lemma CustomIsDelegatedIff(defaultDomain: string, c: Cluster)
    requires c.customHostedZoneName != "" && c.baseDomain == ""
    ensures ParentHostedZoneName(defaultDomain, c) != "" <==>
      exists a, b, rest :: StartsWith(c.customHostedZoneName, a, b, rest)
  {
    var name := c.customHostedZoneName;
    if a, b, rest :| StartsWith(name, a, b, rest) {
      FirstDotSplits(a, b + ("." + rest));
      assert (b + ("." + rest))[|b|] == '.';
    }
    if ParentHostedZoneName(defaultDomain, c) != "" {
      TwoLabels(name);
    }
  }

  lemma TwoLabels(name: string)
    requires AfterFirstDot(name).Some? && '.' in AfterFirstDot(name).value
    ensures exists a, b, rest :: StartsWith(name, a, b, rest)
  {
    var parent := AfterFirstDot(name).value;
    AfterFirstDotIsSuffix(name);
    AfterFirstDotIsSuffix(parent);
    var a :| '.' !in a && Below(name, parent, a);
    var b :| '.' !in b && Below(parent, AfterFirstDot(parent).value, b);
    BelowTwice(name, parent, AfterFirstDot(parent).value, a, b);
  }

  lemma BelowTwice(name: string, parent: string, rest: string, a: string, b: string)
    requires '.' !in a && '.' !in b && Below(name, parent, a) && Below(parent, rest, b)
    ensures StartsWith(name, a, b, rest)
  {
    assert parent == b + ("." + rest);
    assert name == a + ("." + parent);
  }

  lemma {:induction false} FirstDotSplits(a: string, rest: string)
    requires '.' !in a
    ensures AfterFirstDot(a + ("." + rest)) == Some(rest)
  {
    if a != "" {
      assert (a + ("." + rest))[1..] == a[1..] + ("." + rest);
      FirstDotSplits(a[1..], rest);
    } else {
      assert (a + ("." + rest))[1..] == rest;
    }
  }

  /** With both set the base domain decides alone, and may be the zone itself. */
  lemma ParentCanBeTheZone(c: Cluster, defaultDomain: string)
    requires c.customHostedZoneName == c.baseDomain != ""
    ensures ParentHostedZoneName(defaultDomain, c) == HostedZoneName(defaultDomain, c)
  {
  }

  lemma LowerAppend(a: string, b: string)
    ensures Lower(a + b) == Lower(a) + Lower(b)
  {
  }

  /** A zone and a zone above it are stored under different names. */
  lemma AboveDiffers(zone: string, parent: string, host: string)
    requires Below(zone, parent, host) && parent != ""
    ensures Canonical(zone) != Canonical(parent)
  {
    var front := host + ".";
    assert zone == front + parent;
    assert Dotted(zone) == front + Dotted(parent) by {
      if parent[|parent| - 1] == '.' {
        assert zone[..|zone| - 1] == front + parent[..|parent| - 1];
      }
    }
    LowerAppend(front, Dotted(parent));
    EscapeAppend(Lower(front), Lower(Dotted(parent)));
    EscapeIsNotShorter(Lower(front));
    assert |Canonical(zone)| > |Canonical(parent)|;
  }

  lemma {:induction false} EscapeIsNotShorter(s: string)
    ensures |Escape(s)| >= |s|
  {
    if s != "" {
      EscapeIsNotShorter(s[1..]);
    }
  }

  /** So a delegation never lands on the delegated zone's own NS set. */
  lemma ParentDiffers(defaultDomain: string, c: Cluster)
    requires c.customHostedZoneName == "" || c.baseDomain == ""
    ensures
      var zone, parent := HostedZoneName(defaultDomain, c), ParentHostedZoneName(defaultDomain, c);
      parent == "" || Canonical(zone) != Canonical(parent)
  {
    var zone, parent := HostedZoneName(defaultDomain, c), ParentHostedZoneName(defaultDomain, c);
    ParentIsAbove(defaultDomain, c);
    if parent != "" {
      var host :| Below(zone, parent, host);
      AboveDiffers(zone, parent, host);
    }
  }

  // ---- the names inside a zone ----

  lemma UnderZone(zone: string, host: string)
    requires zone != ""
    ensures Canonical(host + "." + zone) == Escape(Lower(host)) + ("." + Canonical(zone))
  {
    var name := host + "." + zone;
    assert Dotted(name) == host + ("." + Dotted(zone)) by {
      if zone[|zone| - 1] == '.' {
        assert name[..|name| - 1] == host + "." + zone[..|zone| - 1];
      }
    }
    LowerAppend(host, "." + Dotted(zone));
    LowerAppend(".", Dotted(zone));
    assert Lower(".") == ".";
    EscapeAppend(Lower(host), "." + Lower(Dotted(zone)));
    EscapeAppend(".", Lower(Dotted(zone)));
    assert Escape(".") == "." + Escape("");
  }

  /** The api record is never stored where the wildcard is. */
  lemma ApiIsNotWildcard(zone: string)
    requires zone != ""
    ensures Canonical("api." + zone) != Canonical("*." + zone)
  {
    UnderZone(zone, "api");
    UnderZone(zone, "*");
    assert "api" + "." + zone == "api." + zone && "*" + "." + zone == "*." + zone;
    EscapeKeepsPlainText("api");
    assert Lower("api") == "api" && Lower("*") == "*";
    assert Escape("*") == ESCAPED_ASTERISK + Escape("");
    assert Canonical("api." + zone)[0] == 'a';
    assert Canonical("*." + zone)[0] == '\\';
  }
}
