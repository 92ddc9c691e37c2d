# aws-resolver-rules-operator: a Dafny model

The operator keeps AWS resources in step with Kubernetes objects: hosted zones and delegations in Route 53, RAM shares
with their users, entries of a managed prefix list, resolver rule associations, and Karpenter machine pools. Its
controllers take steps against a remote state in which any call may fail, take effect with its response lost, or be
followed by a restart. This project models the protocols behind those controllers and proves what every run keeps.
`dafny verify dfyconfig.toml` checks all of it.

## The pieces

**DNS.** `Cloud.World` is Route 53, the API server's objects and the clock; `trail` records the world after every call.
`Route53Client.Route53` is the client with its three caches (zone name to id, 90 s; zone id to NS set, 300 s; recent
upserts, 120 s). `HostedZones.Zoner` is the create and delete lifecycle with its cache of clients, and
`DnsController.DnsReconciler` puts the finalizer around it. The proofs are about values: `ZoneCaches`, `Upserts` and
`Deletions` for the client, `ZoneSafety`, `ZoneEffects` and `ZoneMemory` for the lifecycle, `Synthesis`, `Wildcards`,
`RecordWrites` and `Draining` for the records. `Results` holds what every module shares, `Reachability` what it means to
get from one state to another.

The main results are:

- `DnsController.Operate`: after every call of every run, with any failures, lost responses, restarts, stale copies of
  the object, and zones and records of others, an NS set for a cluster's zone in another zone means that it is in the
  cluster's parent, that the zone exists, and that those are its name servers; an existing zone is covered by the
  finalizer; and no zone is lost before the deletion of its cluster is read (`KeptSays`). `NoFinalizerNoZone` and
  `NoZoneNoDelegation` draw the conclusions: no finalizer means no zone and no delegation, and taking a zone that is not
  found for deleted skips no delegation.
- `DnsReconciler.Reconcile`: success leaves finalizer, zone, a wildcard that does not point at itself, and delegation, or,
  on deletion, none of them. The caches do not weaken this: `SeenIsTheOne` shows that a cached id is the id of the zone
  that is there, and a remembered delegation is in the parent for as long as its cluster is not being deleted. The
  records are another matter: the zone holds what was asked for if and only if no remembered batch was skipped, or it
  held it before. `UpsertRuns.RemoveThenWrite` runs the client into the other case.
- `DnsReconciler.Provide`: in a reliable world one reconcile from a current version puts all of it in place, if and only if
  the zone's name is well formed and its parent, if there should be one, can be found.
- `DnsReconciler.RetryDeletion`: retrying the deletion of a zone of m record sets with listing pages of size k, at least
  3, ends with zone, delegation and finalizer gone after at most m / (k - 2) + 1 passes, whatever is cached, if and only
  if no NS or SOA set lies below the top of the zone and the parent, if there should be one, can be found. Otherwise
  no pass succeeds, with any pages and any failures (`SubDelegationSticks` gives the input).
- `ZoneIdRuns.RunAlone`: with one writer, a cached lookup answers as an uncached one after any sequence of the client's
  operations, and no two zones of one name ever exist. The first half is for names as the listing caches them, and
  `ZoneLife`, a run of the client, shows that this is the exact condition. `TrailingDotOutlivesItsZone` and
  `UnstoredNameAnswersDiffer` run it into both ways of failing.
- `UpsertRuns.RunBatch`: over any run of the client's operations in which one batch alone writes its record sets and
  nothing deletes them or their zone, any call for it that succeeds more than 120 s after the start leaves every record
  of the batch in the zone. That other batches and delegations do not interfere comes from the key theorems. The bound
  is exact (`ThirdCallIsTrueIff`).
- `CacheKeys`: upsert keys are uniquely decodable, the two kinds never meet, and prefix invalidation drops exactly one
  zone's keys, for every table of printable characters.
- `HostedZones.InPlaceNeverLoops`: with existence, the closest encloser and the source of synthesis as in section 3.3.1
  of RFC 4592, no wildcard answers for what a reconciled cluster's wildcard points to. `WildcardLoopsIff` says exactly
  when it would.

**Finalizers on one object.** `ApiServer` is an object as the sequence of its versions, with merge patches (section 2 of
RFC 7396), the optimistic lock and the rule that deletion only shrinks the list. `NoLostUpdates` covers any number of
controllers. `NetworkTopology` interleaves the share, attachment, entry and management cluster reconcilers call by call:
shares outlive their users (`SharesOutliveTheirHolders`) and are covered by the share finalizer (`SharesAreCovered`),
except after a read that `UncoveredShareIff` pins down and that only an annotation set by hand makes possible.
`TopologyProgress` adds what gets done: without faults, deletion ends with everything released and all three finalizers
gone if and only if every share is covered, and creation with everything in place.

**Machine pools.** `MachinePool` is the deletion gate, `Bootstrap` the upload skipped by hash, `VersionSkew` the version
gate, `Instances` the listing the gate reads. The gate and the skip are both false in general; `GateLeaksIff` and
`AlwaysRightIff` say exactly when they hold. `PoolProgress` says when deletion gets to its end by the controller alone,
that only listed instances of a deleted cluster are terminated, and that creation completes.

**Prefix lists and resolver rules.** `PrefixLists` and `ResolverRules`, the latter over the address arithmetic of
`Addresses`.

## Where the code falls short of its promise

Each has its input and its exact condition.

- A zone created with a final dot in its name outlives its deletion in the cache for up to 90 s, and one created under a
  name Route 53 stores in another form is not found again (`ZoneLife`).
- A record upsert that succeeds because it is remembered may be out of date for up to 120 s (`ThirdCallIsTrueIff`). One
  way there: the wildcard is deleted with the response lost, so the cache is not invalidated; its target comes back, the
  remembered batch is skipped, and the reconcile succeeds without the wildcard (`RemoveThenWrite`, and `Reconcile` for
  the condition).
- A wildcard target configured with an upper-case letter or an asterisk is taken to be missing, and the wildcard is
  deleted (`WildcardIsWrittenIff`, `UpperCaseTargetLosesWildcard`).
- A zone with an NS or SOA set below its top is never emptied, and one whose parent zone is gone is never undelegated:
  no number of retries removes the finalizer (`RetryDeletion`, `SubDelegationSticks`).
- The finalizer of a machine pool can be dropped with an instance running (`GateLeaksIff`, `LeakingRun`).
- A bootstrap secret that returns to an earlier value after a lost patch is not uploaded (`AlwaysRightIff`).
- A prefix list share is made without a finalizer if its annotation is set by hand and there is no gateway
  (`UncoveredShareIff`, `HandSetAnnotationLeaks`).

## What is assumed

- Every AWS call happens at one instant; the clock stands still during one call of the Route 53 client and moves between
  calls. A crash between two calls is a call that fails followed by a restart: no reconciler goes on after a failed call.
- Per run, a cluster's zone name, parent, roles, region and DNS mode are fixed. Zone names are stored by Route 53 as they
  are written, up to the final dot, belong to one cluster each, have no backslash and differ from the parent's name
  (`Clusters.ParentDiffers` shows when the last holds by itself).
- Among the names of the clusters' zones and of their parents, none has two zones in its account. The operator alone
  creates and deletes those zones and writes the clusters' delegations and wildcards. Everything else in Route 53 may be
  changed by others at any time between reconciles, other zones in the same accounts included.
- The DNS controller has one worker, and its reads of the Cluster never go back in time; its reads of the AWSCluster may.
- The order of Route 53's listings is any strict total order on names first, types second.
- The load balancer zone of each region, the characters Go prints unescaped, the parsers of Go's net and semver
  libraries and the hash (injective) are parameters.

The comment above `DnsReconciler` speaks of three records and of an `A` record for the API server; the code writes two,
and a `CNAME` on EKS. The model follows the code.

## Model

The first 44 rows, up to `ResolverRules.AttemptedIff`, are the main results.

| member | source | states |
|---|---|---|
| DnsController.Operate | controllers/dns.go:40-147 | from any start in which no cluster has a zone or a delegation, in every run, at every recorded moment: a delegation is grounded and a zone is covered by the finalizer; no zone is lost before its deletion was read |
| DnsController.DnsReconciler.Run | controllers/dns.go:49-147 | the same from any state of the invariant, with failures, lost responses, restarts, late reads and foreign zones and records |
| DnsController.DnsReconciler.Reconcile | controllers/dns.go:49-107 | one reconcile from whatever it read: success leaves finalizer, zone, safe wildcard and delegation, or none of them; the zone then serves what it was asked for, wildcard and api name in their exact form, iff no remembered batch was skipped or it served it before; in a reliable world a cluster that is not being deleted succeeds iff its copy has or gets the finalizer and its zone can be created and delegated; idle, it changes nothing |
| DnsController.DnsReconciler.Provide | controllers/dns.go:111-125 | in a reliable world one reconcile from the current version of an object that can get the finalizer puts finalizer, zone, records and delegation in place iff the zone's name is well formed and its parent, where it needs one, can be found |
| DnsController.DnsReconciler.RetryDeletion | controllers/dns.go:136-144 | in a reliable world with pages of k >= 3, more than m / (k - 2) passes over a zone of m sets end with everything gone iff no NS or SOA set lies below its top and its parent can be found; otherwise no pass ever succeeds, in any world, and zone and finalizer stay |
| DnsController.DnsReconciler.SubDelegationSticks | pkg/aws/route53.go:477-487 | the input: once others delegate a name below the zone, no number of passes deletes it and the finalizer stays |
| ZoneIdRuns.RunAlone | pkg/aws/route53.go:267-313 | over any sequence of the client's eleven operations by a single writer: no name has two zones if zones are created under stored names, and lookups answer as uncached if under bare names |
| ZoneIdRuns.ZoneLife | pkg/aws/route53.go:106-107 | run on the client: create, look up under both forms of the name, delete, look up again; every answer is the uncached one iff the zone was created under its bare name |
| ZoneIdRuns.TrailingDotOutlivesItsZone | pkg/aws/route53.go:190-197 | run on the client: create with a final dot, look up without, delete; one of the two names still answers with the id of the zone that is gone |
| ZoneIdRuns.UnstoredNameAnswersDiffer | pkg/aws/route53.go:106-107 | run on the client: a zone created under a name stored in another form answers from the cache while AWS knows no zone of that name |
| UpsertRuns.RunBatch | pkg/aws/route53.go:368-406 | over any run of the client's eleven operations in which one batch alone writes its record sets and nothing deletes them or their zone, a call for it that succeeds more than 120 s after the start leaves each of its records in the zone in the form of its kind |
| Upserts.ThirdCallIsTrueIff | pkg/aws/route53.go:384-401 | a batch, another one, the first again: the third success is true iff more than 120 s have passed since the first |
| UpsertRuns.RemoveThenWrite | pkg/aws/route53.go:438-459 | run on the client: a record of a remembered batch is deleted and the batch asked for again; after a success the batch is in the zone iff it is not the case that the deletion took effect with its response lost and the batch is still remembered |
| CacheKeys.ZoneKeysAgreeIff | pkg/aws/route53.go:377-382 | two record upserts share a key iff the zone agrees and the batches agree up to region and comma-joining |
| CacheKeys.DelegationKeysAgreeIff | pkg/aws/route53.go:332 | two delegation upserts share a key iff parent, name and comma-joined servers agree |
| CacheKeys.KindsNeverCollide | pkg/aws/route53.go:332-382 | record keys and delegation keys never meet, and invalidation reaches no delegation key |
| CacheKeys.InvalidationIsExact | pkg/aws/route53.go:453-459 | the zone prefix selects exactly that zone's keys, even if one id is a prefix of another |
| Wildcards.WildcardIsWrittenIff | pkg/resolver/zoner.go:259-302 | the wildcard is written iff a record set is stored under its target's name, the configured target is in stored form and, outside EKS and China, one is stored under the irsa name (names of letters, digits, hyphens and dots, and the asterisk) |
| HostedZones.InPlaceNeverLoops | pkg/resolver/zoner.go:279-301 | after a success on a cluster that is ready, no wildcard of the zone is the source of synthesis for what the cluster's wildcard points to |
| Wildcards.WildcardLoopsIff | pkg/resolver/zoner.go:279-283 | the wildcard is the source of synthesis for its own target iff nothing exists at, below or on the way down to the target |
| ApiServer.NoLostUpdates | pkg/k8sclient/awsclusterclient.go:57-67 | for any number of controllers and any interleaving each patch changes at most its own finalizer |
| NetworkTopology.SharesOutliveTheirHolders | controllers/share.go:113-148 | when a share is deleted, detach was issued and the entry is gone, and neither comes back |
| TopologyProgress.DeletionCompletesIff | controllers/share.go:113-148 | from every state of every run with the object being deleted and the workers idle: without faults detach and removal are issued, the shares go and all three finalizers are dropped, iff every share is covered by its finalizer |
| TopologyProgress.DeletionCompletes | controllers/share.go:113-148 | so always, if no annotation was set by hand |
| TopologyProgress.CreationCompletes | controllers/share.go:157-288 | from every such state of an object that is not being deleted, with both ARNs known: without faults both shares are made, the gateway is attached and the entry is in the list, each under its finalizer |
| TopologyProgress.ReleasesAreDecided | controllers/transit_gateway_attachment.go:171-192 | in every run, a holder is released only by a reconcile that read the object being deleted with the holder's finalizer, and a share deleted only by one that read it so with the share finalizer and no holder's |
| NetworkTopology.SharesAreCovered | controllers/share.go:157-203 | unless a network annotation is set by hand, every share is covered by the share finalizer at every moment of every run |
| NetworkTopology.UncoveredShareIff | controllers/share.go:231-288 | over runs with no such read before: a run can go on to an uncovered share iff this read knows a prefix list, no gateway and no deletion while the finalizer is not on the server |
| NetworkTopology.HandSetAnnotationLeaks | controllers/share.go:264-288 | a whole run to a share without a finalizer, after a prefix list annotation set by hand |
| MachinePool.CreatedUnderFinalizer | controllers/karpentermachinepool_controller.go:242-266 | NodePool, EC2NodeClass and user data are written only under a persisted finalizer |
| PoolProgress.TerminationIsDue | controllers/karpentermachinepool_controller.go:405-416 | in every run, instances are terminated only after the cluster was seen being deleted, and only such as the listing counted |
| PoolProgress.PoolDeletionCompletesIff | controllers/karpentermachinepool_controller.go:377-435 | from every state of every run with the pool being deleted, its finalizer held and no reconcile under way: without faults the controller alone ends with no instance, no user data and no finalizer, iff the cluster is being deleted, or its API is there and no instance is left |
| PoolProgress.PoolCreationCompletes | controllers/karpentermachinepool_controller.go:241-266 | from every such state of a pool that is not being deleted, with the workload API there: without faults it gets finalizer, node class, node pool and, unless managed, user data |
| MachinePool.GateLeaksIff | controllers/karpentermachinepool_controller.go:377-435 | for managed and unmanaged pools: after a listing that opened the gate, some continuation drops the finalizer with an instance running iff something could launch when the instances were listed; the drop may be in a later reconcile |
| MachinePool.GateSendsIff | controllers/karpentermachinepool_controller.go:397-435 | the same within the reconcile of that listing: it can come to its last patch with an instance running under the same condition |
| MachinePool.LeakingRun | controllers/karpentermachinepool_controller.go:390-435 | whole runs from nothing, managed or not, that drop the finalizer with an instance running |
| MachinePool.QuietReleaseIsFinal | controllers/karpentermachinepool_controller.go:431-434 | after such a drop no instance, launch or user data ever comes back |
| Bootstrap.AlwaysRightIff | controllers/karpentermachinepool_controller.go:313-355 | every success in every run over a history of secrets leaves S3 right iff no value comes back in that history |
| Bootstrap.SuccessMeansUploaded | controllers/karpentermachinepool_controller.go:313-355 | every success leaves S3 equal to the secret it read, however many patches were lost |
| VersionSkew.WorkersNeverAhead | controllers/karpentermachinepool_controller.go:219-255 | in every run the worker version applied is not newer than the control plane's in the order of section 11 of Semantic Versioning 2.0.0, stale reads included |
| PrefixLists.RunOperations | controllers/prefix_list_entry.go:141-172 | over any operations one entry per CIDR, and every change is on behalf of the named cluster |
| PrefixLists.ApplyThenDelete | pkg/aws/prefixlist.go:42-86 | the same through the client when both calls succeed |
| ResolverRules.AssociateRulesWithVpc | pkg/resolver/resolver.go:45-86 | the whole pass, for any paging of both listings; unless a listing fails it succeeds iff the range parses or there is no rule |
| ResolverRules.AttemptedIff | pkg/resolver/resolver.go:62-81 | a rule is attempted iff it is wanted, not associated and has no target in the range |
| Cloud.World.ListHostedZonesByName | pkg/aws/route53.go:274-286 | the listing starts at a name, is sorted and leaves nothing out before its end, or the call failed |
| Cloud.World.CreateHostedZone | pkg/aws/route53.go:102-106 | a new id and its own NS and SOA sets, or nothing; an error may hide that the zone was made; a well-formed name is refused only by a failure |
| Cloud.World.ChangeTags | pkg/aws/route53.go:142-145 | tagging succeeds only on a zone that exists, and then unless the call fails |
| Cloud.World.DeleteHostedZone | pkg/aws/route53.go:199-206 | only a zone with nothing but its own NS and SOA goes; an unknown id is told apart |
| Cloud.World.ListRecordSets | pkg/aws/route53.go:169-176 | a sorted page from the marker with the stored data, only of an existing zone |
| Cloud.World.ChangeRecordSets | pkg/aws/route53.go:391-399 | the batch applies as a whole or not at all, and an error may hide that it did |
| Cloud.World.PatchObject | pkg/k8sclient/clusterclient.go:58-66 | the server's answer to a patch takes effect or not, and an error may hide that it did |
| Listing.TakePage | pkg/aws/route53.go:274-283 | what a start-marker listing returns: sorted, from the marker on, complete up to its end |
| Route53Client.GoOrderIsSound | pkg/aws/route53.go:274-279 | an order such as the listings need exists |
| Listing.NameComesFirst | pkg/aws/route53.go:274-283 | items of the marker's name come first on the page |
| Strings.UnescapedNameMatchesIff | pkg/aws/route53.go:428-432 | undoing the asterisk escape recognises exactly the stored form of a lower-case name |
| NameServers.Normalize | pkg/aws/route53.go:598-605 | the normalised names, sorted |
| NameServers.HaveSameDnsNames | pkg/aws/route53.go:597-612 | true exactly when the lists can be paired one to one by name: letter by letter whatever the case, with or without a final dot |
| NameServers.NormalAlikeIff | pkg/aws/route53.go:609-611 | two names are normalised alike iff they are the same DNS name |
| Quoting.QuoteCancels | pkg/aws/route53.go:377-382 | a quoted string can be read off the front of any text in one way only |
| CacheKeys.BuildHash | pkg/aws/route53.go:377-380 | the loop builds the concatenated record hashes |
| ZoneCaches.Invalidate | pkg/aws/route53.go:453-459 | the loop drops exactly the living entries with the prefix |
| ZoneCaches.HitIsRecent | pkg/aws/route53.go:267-272 | a cached answer named a zone of that name at a moment no more than 90 s ago |
| ZoneCaches.NsHitIsRecent | pkg/aws/route53.go:214-222 | a cached NS set was the zone's at a moment no more than 300 s ago |
| ZoneCaches.CachedAnswers | pkg/aws/route53.go:267-272 | under a single writer a cached answer is the uncached one |
| ZoneCaches.AnswerIsUnique | pkg/aws/route53.go:288-313 | a state determines what a lookup answers |
| ZoneCaches.AbsentFromPage | pkg/aws/route53.go:288-309 | a page without the wanted name proves that no zone has it |
| ZoneCaches.OnceOnPage | pkg/aws/route53.go:288-312 | a page that shows it once shows the only zone of that name |
| ZoneCaches.TwiceOnPage | pkg/aws/route53.go:291-296 | a page that shows it twice proves that two zones have it |
| ZoneCaches.ShownIff | pkg/aws/route53.go:178-183 | the client sees a record set of a name iff there is one and the name is written as it is stored |
| ZoneCaches.UpperCaseIsMissed | pkg/aws/route53.go:178-183 | "A.b" misses the record set stored as "a.b." |
| ZoneCaches.OneItemIsApex | pkg/aws/route53.go:224-249 | the NS listing from a zone's own name is the zone's own NS set |
| Route53Client.FindZone | pkg/aws/route53.go:288-299 | the page's one zone of the wanted name, none, or an error for two |
| Route53Client.CachePage | pkg/aws/route53.go:301-305 | every zone of the page is cached under its name without the final dot |
| Route53Client.Route53.constructor | pkg/aws/route53.go:60-74 | a client starts with three empty caches |
| Route53Client.Route53.GetHostedZoneIdByName | pkg/aws/route53.go:267-313 | a hit is what is cached and named such a zone within 90 s, a miss answers for the whole account, "not found" is true now; only exact entries are added |
| Route53Client.Route53.CreateHostedZone | pkg/aws/route53.go:76-123 | a zone is created only if none of that name is found, and is created if there is none, none is cached and no call fails; it is cached under the caller's name; success with tags means that the returned zone exists; the answer is never "not found" |
| Route53Client.Forget | pkg/aws/route53.go:190-197 | at most one living entry of the zone is dropped, none only if there was none |
| Route53Client.ForgettingIsEnough | pkg/aws/route53.go:188-197 | under a single writer dropping one entry forgets the zone |
| Route53Client.Route53.DeleteHostedZone | pkg/aws/route53.go:188-210 | success means that the id is gone, an empty zone goes, and exact caches stay exact |
| Route53Client.Route53.GetHostedZoneNSRecord | pkg/aws/route53.go:212-265 | the record was the zone's NS set with servers within 300 s; asked with the zone's own name, and that set untouched, it is the set the zone was born with |
| Route53Client.Route53.RequestNSRecord | pkg/aws/route53.go:222-249 | the listed set is accepted only if it is an NS set with servers; it is the zone's now, and its own when asked with its name |
| Route53Client.Route53.DnsRecordExists | pkg/aws/route53.go:168-186 | true iff the name is written as it is stored and some record set of the zone is stored under it; answered for an existing zone unless the call fails |
| Route53Client.Route53.UpsertUnlessRemembered | pkg/aws/route53.go:384-401 | skipped without change while remembered, else sent, remembered for 120 s only on success |
| Route53Client.Route53.AddDelegationToParentZone | pkg/aws/route53.go:316-366 | no servers is an error; else one NS upsert through the upsert cache |
| Route53Client.Route53.AddDnsRecordsToHostedZone | pkg/aws/route53.go:368-406 | no records is an error; a supported record without values fails with nothing sent; else the batch goes through the upsert cache |
| Route53Client.Route53.DeleteDnsRecord | pkg/aws/route53.go:408-465 | removes exactly the set of that name and type, success means it is absent, and the zone's remembered upserts go with it |
| Route53Client.Route53.DeleteDnsRecordsFromHostedZone | pkg/aws/route53.go:467-502 | removes exactly what the first page shows besides NS and SOA |
| Route53Client.Route53.DeleteDelegationFromParentZone | pkg/aws/route53.go:542-595 | removes the NS set iff its servers and the given ones can be paired one to one as DNS names; missing is fine, different is an error |
| Upserts.BuildChanges | pkg/aws/route53.go:504-540 | CNAME, A and ALIAS records become upserts, other kinds are skipped; one without values is a failure (the code panics) |
| Upserts.AgreesIff | pkg/aws/route53.go:504-540 | a zone agrees with the batch iff it holds each record that no later one overwrites: an alias as an A set with the first value as target in the region's zone, a CNAME or A with the first value alone and 300 s |
| Upserts.UpsertsApply | pkg/aws/route53.go:391-396 | a batch of upserts leaves the last data asked for at every key and touches no other |
| Upserts.LateSuccessIsTrue | pkg/aws/route53.go:368-406 | on the level of views: if one batch alone is requested from T on, a success after T + 120 s leaves all its records in the zone |
| Upserts.SuccessIsTrueIff | pkg/aws/route53.go:384-401 | a success leaves the batch in the zone iff it was sent or was there already |
| UpsertRuns.Make | pkg/aws/route53.go:316-406 | each of the eleven operations is a step of that run: the batch itself, or one that leaves its key and its record sets alone |
| UpsertRuns.OtherHasOtherKey | pkg/aws/route53.go:377-382 | a batch for another zone or other record sets has another key |
| Deletions.DeletionsOf | pkg/aws/route53.go:477-487 | the loop collects deletions of everything but NS and SOA |
| Deletions.DeletionsApply | pkg/aws/route53.go:477-499 | that batch applies and removes exactly those sets |
| Deletions.OneItemFindsTheSet | pkg/aws/route53.go:418-434 | the listed item is the wanted set iff it exists, and a matching item is no other |
| Deletions.LowerCaseIsRecognised | pkg/aws/route53.go:428-434 | lower case without a backslash is enough to recognise one's own record |
| Deletions.NormalMatchIsOwn | pkg/aws/route53.go:557-561 | a normalised match is the stored form itself |
| ZoneIdRuns.FoundAgainIff | pkg/aws/route53.go:288-299 | a created zone is found again under its name iff Route 53 stores the name as written |
| ZoneIdRuns.AnswersAgreeIff | pkg/aws/route53.go:106-107 | the same as `ZoneLife` on the two entries, whichever of them deletion forgets |
| Clusters.TagsForHostedZone | pkg/resolver/zoner.go:239-251 | a zone always has tags, its cluster's name and ownership among them, and the cluster's own tags win |
| Clusters.ParentIsAbove | pkg/resolver/zoner.go:204-230 | unless a custom name and a base domain are both set, the parent is the zone right above |
| Clusters.CustomIsDelegatedIff | pkg/resolver/zoner.go:220-227 | a custom zone name is delegated iff it has at least three labels |
| Clusters.ParentDiffers | pkg/resolver/zoner.go:215-230 | then a delegation never lands on the zone's own NS set |
| Clusters.ParentCanBeTheZone | pkg/resolver/zoner.go:215-218 | with both set to the same name the parent is the zone itself |
| Clusters.ApiIsNotWildcard | pkg/resolver/zoner.go:288-308 | the api record is never stored where the wildcard is |
| DnsController.SafeSays | pkg/resolver/zoner.go:55-171 | a reading of `Operate`: safe means that a delegation is grounded and a zone or delegation is covered by the finalizer |
| ZoneMemory.KeptSays | controllers/dns.go:111-147 | a reading of `Operate`: a cluster's zone that was there at any moment is still there, until the deletion of the cluster is read |
| ZoneSafety.NoFinalizerNoZone | controllers/dns.go:129-147 | a reading of `Operate`: when the finalizer is gone, neither zone nor delegation is left |
| ZoneSafety.StartIsSafe | pkg/resolver/zoner.go:26-32 | a world without the clusters' zones and delegations, and with no doubled parent, is safe |
| ZoneSafety.NoZoneNoDelegation | pkg/resolver/zoner.go:120-125 | a missing zone has no delegation, so the shortcut skips nothing |
| ZoneSafety.CreatedKeepsSane | pkg/resolver/zoner.go:71-74 | creating a zone for a cluster without one keeps no-dangling, unique zones and own wildcards |
| ZoneSafety.RecordsKeepSane | pkg/resolver/zoner.go:184-199 | writing record sets that delegate no cluster keeps it |
| ZoneSafety.DelegatingKeepsSane | pkg/resolver/zoner.go:98-106 | delegating an existing zone from its parent keeps it |
| ZoneSafety.UndelegatingKeepsSane | pkg/resolver/zoner.go:147-156 | taking the delegation away keeps it |
| ZoneSafety.OneParentDecides | pkg/resolver/zoner.go:142-156 | where the one parent zone does not delegate, no zone does |
| ZoneSafety.RemovingKeepsSane | pkg/resolver/zoner.go:160-168 | deleting a zone that is not delegated keeps it, and leaves the cluster without a zone |
| ZoneEffects.AddKeepsKept | pkg/k8sclient/clusterclient.go:58-66 | a locked addition puts the finalizer there and touches no other object |
| ZoneEffects.RemoveKeepsKept | pkg/k8sclient/clusterclient.go:87-91 | a locked removal takes the finalizer away and touches no other object |
| ZoneMemory.SeenIsTheOne | pkg/aws/route53.go:267-272 | while one of the operator's names has a zone, any id seen under it within 90 s is that zone's |
| ZoneMemory.DelegationRemembered | pkg/aws/route53.go:332-361 | a remembered delegation speaks for one parent and one cluster only |
| Wildcards.NeverItsOwnTarget | pkg/resolver/zoner.go:279-301 | a reading of `InPlaceNeverLoops`: a target with a record of its own is never synthesised, by this wildcard or any other |
| Wildcards.CreatesOnlyOurs | pkg/resolver/zoner.go:289-320 | the records to create are the wildcard with its own target and the api record, all with values |
| Wildcards.UpperCaseTargetLosesWildcard | pkg/resolver/zoner.go:273-301 | with "Ingress" configured the wildcard is taken away although its target exists |
| Wildcards.UncheckedWildcardLoops | pkg/resolver/zoner.go:279-283 | in a zone with nothing else, the default wildcard is the source of synthesis for its own target |
| Wildcards.WildcardIsRecognised | pkg/aws/route53.go:428-434 | the wildcard of a proper zone is recognised in the listing |
| Synthesis.WildcardAnswersIff | pkg/resolver/zoner.go:279-283 | a wildcard below a name answers for a query iff that name is the query's closest encloser and the query does not exist |
| Synthesis.EncloserIsUnique | pkg/resolver/zoner.go:279-283 | a query has at most one closest encloser |
| HostedZones.ClientKeyTellsRole | pkg/resolver/zoner.go:40 | a client cache key tells region and role |
| HostedZones.Zoner.GetCachedOrNewRoute53Client | pkg/resolver/zoner.go:34-53 | the client belongs to the account of the role asked for, cached or new |
| HostedZones.Zoner.EnsureZone | pkg/resolver/zoner.go:71-74 | success means the cluster's zone exists; in a reliable world it is found or created if its name is well formed; the world stays safe under the finalizer |
| HostedZones.Zoner.FindZone | pkg/resolver/zoner.go:92-147 | while one of the operator's names has a zone, the answer is that zone, cached or not; "not found" is true now; a name that is stored in another form is never found |
| HostedZones.Zoner.GetWorkloadClusterDnsRecords | pkg/resolver/zoner.go:253-323 | the records to create and to delete, as a function of the zone's sets |
| HostedZones.Zoner.WriteRecords | pkg/resolver/zoner.go:192-199 | success leaves the batch in the zone iff it was sent or was there already; it is skipped only if it was remembered |
| RecordWrites.HoldsIsAgreed | pkg/resolver/zoner.go:288-320 | the batch of a reconcile is in the zone iff the wildcard, where it is due, is a CNAME of the configured host, and the api name is, on EKS, a CNAME of the endpoint without its scheme, elsewhere an alias to it in the region's zone |
| HostedZones.Zoner.ReconcileDnsRecords | pkg/resolver/zoner.go:173-202 | success leaves no wildcard without its target in a zone that is ready, and the records asked for iff no remembered batch was skipped or they were there already |
| HostedZones.Zoner.ApplyRecords | pkg/resolver/zoner.go:184-199 | deletions, then one batch; the same follows |
| HostedZones.Zoner.AddDelegation | pkg/resolver/zoner.go:82-108 | success leaves the zone delegated, whether the upsert was sent or skipped, and touches no other zone; it needs the parent to be there, and in a reliable world nothing else |
| HostedZones.Zoner.CreateHostedZone | pkg/resolver/zoner.go:55-111 | success means zone, safe wildcard and delegation, and what was asked for under the exact condition; in a reliable world it succeeds iff the zone can be created and delegated; safe at every moment |
| HostedZones.Zoner.RemoveDelegation | pkg/resolver/zoner.go:131-158 | success means that no zone delegates the cluster's zone |
| HostedZones.Zoner.DeleteHostedZone | pkg/resolver/zoner.go:113-171 | success means that zone and delegation are gone; safe at every moment; a failed pass in a reliable world shrinks a drainable zone, and any pass over another fails and leaves it |
| Draining.PassShrinks | pkg/aws/route53.go:468-502 | one pass with pages of k leaves a tame zone deletable or takes away at least k - 2 sets |
| Draining.UntameStays | pkg/aws/route53.go:477-487 | an NS or SOA set below the top of the zone outlives a pass with any page, and keeps the zone from being deletable |
| Draining.PassIsInVainIff | pkg/aws/route53.go:468-487 | a pass over a tame zone takes nothing away iff the page shows only the zone's own NS and SOA, so never with pages of three |
| Draining.PagesOfTwoGetStuck | pkg/aws/route53.go:468-487 | three is the least such page: one of two may show only those |
| Draining.DelegationMatches | pkg/aws/route53.go:563-569 | the delegation that is there names the zone's own servers, so its deletion is not refused |
| DnsController.DnsReconciler.AddAWSClusterFinalizer | pkg/k8sclient/clusterclient.go:58-66 | success means that the server has the finalizer, although an old copy may have sent no patch; in a reliable world it succeeds iff the copy has it or is current and not being deleted |
| DnsController.DnsReconciler.RemoveAWSClusterFinalizer | pkg/k8sclient/clusterclient.go:87-91 | success means that the finalizer is gone; called only without a zone |
| DnsController.DnsReconciler.ReconcileNormal | controllers/dns.go:111-125 | from a copy of any age, success leaves finalizer, zone, safe wildcard and delegation, and what was asked for under the exact condition; in a reliable world it succeeds iff the copy has or gets the finalizer and the zone can be created and delegated |
| DnsController.DnsReconciler.ReconcileDelete | controllers/dns.go:129-147 | success under the finalizer means zone, delegation and finalizer are gone, without it nothing is done; a zone that is not drainable makes it fail |
| ApiServer.WithoutFinalizer | pkg/k8sclient/awsclusterclient.go:63-65 | every occurrence of the finalizer is dropped and nothing else |
| ApiServer.Apply | pkg/k8sclient/awsclusterclient.go:57-67 | a patch keeps the past and deletion, and adds no finalizer after deletion started |
| ApiServer.LockedAddIsOwn | pkg/k8sclient/awsclusterclient.go:57-61 | a locked addition succeeds only on the current version and adds its own element |
| ApiServer.LockedRemoveIsOwn | pkg/k8sclient/awsclusterclient.go:63-67 | a locked removal succeeds only on the current version and removes its own element |
| ApiServer.DeletionOnlyShrinks | controllers/share.go:290-293 | once deletion is seen, a finalizer that is absent stays absent |
| ApiServer.UnlockedIsOwnIff | pkg/k8sclient/awsclusterclient.go:57-61 | a reading of `NoLostUpdates`: without the lock it would hold iff the copy differs from the server at most in that finalizer |
| NetworkTopology.HoldersAreCovered | controllers/transit_gateway_attachment.go:144-174 | attachment and entry are covered by their finalizers at every moment of every run |
| NetworkTopology.OutsideStepKeepsInv | controllers/management_cluster_network.go:136-156 | the gateway annotation is always set before the prefix list one |
| NetworkTopology.HolderAddKeepsInv | controllers/transit_gateway_attachment.go:144-156 | the attachment is applied only under its finalizer |
| NetworkTopology.HolderDropKeepsInv | controllers/prefix_list_entry.go:164-174 | the finalizer is dropped only after the entry was removed |
| MachinePool.ReleaseIsSafe | controllers/karpentermachinepool_controller.go:377-435 | the finalizer is dropped only without user data, and without instances unless the NodePool is still there |
| MachinePool.QuietListingStaysEmpty | controllers/karpentermachinepool_controller.go:397-432 | if nothing could launch when instances were listed, none is left at the drop |
| Instances.GetNonTerminatedInstancesByTags | pkg/aws/ec2client.go:170-208 | all countable instances of all pages in order, or an error |
| Instances.ListsTheShown | pkg/aws/ec2client.go:189-204 | an id is in the result iff some page shows it with a state other than terminated |
| Instances.EmptyIffNoneRuns | pkg/aws/ec2client.go:189-204 | the result is empty iff no page shows such an instance |
| PoolProgress.GateReadsInstances | controllers/karpentermachinepool_controller.go:397-416 | if the pages show exactly the pool's instances, the gate's listing is empty iff the pool has none |
| Bootstrap.Pool.ReconcileBootstrapUserData | controllers/karpentermachinepool_controller.go:313-355 | what S3 and the annotation hold after one reconcile, for every secret and fault; success needs a secret with a value, and comes unless a call fails |
| Bootstrap.SkipFindsItThere | controllers/karpentermachinepool_controller.go:331-334 | a skipped upload finds the current secret in S3 already |
| Bootstrap.ReturningSecretKeepsStaleData | controllers/karpentermachinepool_controller.go:333-334 | for every history in which a value comes back, a run of three events succeeds with the wrong data in S3 |
| VersionSkew.PrecedenceIsTotal | pkg/versionskew/skew.go:27-28 | precedence is a total order, prereleases included |
| VersionSkew.PrecedenceIsTransitive | pkg/versionskew/skew.go:27-28 | precedence is transitive |
| VersionSkew.NewerIff | pkg/versionskew/skew.go:27-28 | the comparison is the order of section 11 of Semantic Versioning 2.0.0: major, minor, patch, a release over its prereleases, identifiers one by one |
| VersionSkew.SkewIsAllowedIff | pkg/versionskew/skew.go:14-29 | allowed iff both parse and the worker is not newer; an error iff one does not parse |
| PrefixLists.PrefixListClient.EntryExists | pkg/aws/prefixlist.go:200-223 | true iff the entry is in the list, a conflict is an error |
| PrefixLists.PrefixListClient.CreateEntry | pkg/aws/prefixlist.go:167-185 | appends the entry under the list's version, or changes nothing |
| PrefixLists.PrefixListClient.DeleteVersioned | pkg/aws/prefixlist.go:225-246 | removes the CIDR under the list's version; a list that is gone is no error |
| PrefixLists.PrefixListClient.ApplyEntry | pkg/aws/prefixlist.go:42-63 | success means the entry is there; only a free CIDR is taken; unless a call fails it succeeds iff the CIDR parses and the entry is there or the CIDR is free and the list has room |
| PrefixLists.PrefixListClient.DeleteEntry | pkg/aws/prefixlist.go:65-86 | removes exactly this entry; success means the CIDR is free; unless a call fails it succeeds iff the CIDR parses and nobody else holds it |
| PrefixLists.NobodyElseRemoves | controllers/prefix_list_entry.go:183-185 | only its own cluster removes an entry |
| PrefixLists.DescriptionNamesCluster | controllers/prefix_list_entry.go:183-185 | the description tells the cluster |
| PrefixLists.ApplyThenDeleteRestores | pkg/aws/prefixlist.go:167-246 | adding and removing restores the list, order included |
| Addresses.ContainsIffInRange | pkg/resolver/rule.go:21-26 | a network contains exactly the addresses of its own family from its base up to base + 2^(w-p), for IPv4 and IPv6 (section 3.1 of RFC 4632) |
| ResolverRules.PagedListing.ListAll | pkg/aws/resolverclient.go:310-332 | the token loop returns all pages in order, for any paging |
| ResolverRules.FindResolverRulesByAccount | pkg/aws/resolverclient.go:309-342 | the rules of the wanted owner in order, all rules for no owner |
| ResolverRules.OwnedByIsExact | pkg/aws/resolverclient.go:309-342 | those rules are exactly the listed ones of the owner, each with its ARN, id, name and targets, once per listing and in the order of the listing |
| ResolverRules.TargetIPsBelongToCidr | pkg/resolver/rule.go:15-29 | true iff some parsed target lies in the range; an unparsable range is an error |
| ResolverRules.AlreadyAssociated | pkg/resolver/resolver.go:88-95 | membership |
| ResolverRules.AssociateAll | pkg/resolver/resolver.go:62-81 | attempts exactly the wanted rules in order, past individual failures |

## Left out

- MachinePool.ReleaseIsSafe: allows an instance while the NodePool is still there, because the tolerated failure of its deletion makes the stronger claim false; `GateLeaksIff` gives the exact condition.
- Instances.GetNonTerminatedInstancesByTags: gets the pages of the paginator and the failing request as arguments; the tag filter itself is EC2's.
- The share, attachment, entry, management cluster and machine pool reconcilers are state machines over their remote calls on values, because their claims are about interleavings; update in place of the object they hold is not captured.
- Changes of Route 53 by others between two calls of one reconcile; they happen between reconciles.
- Reconciles of different clusters do not interleave in the DNS model, as the controller has one worker; `controllers/eks_dns.go`, the same protocol on another kind of object, would be a second one.
- Deleting an AWSCluster and creating one of the same name again.
- VPC association of private zones; a public and a private zone of one of the operator's own names in one account, for which the lookup is an error.
- Lower-casing of characters outside ASCII in DNS names, and the octal escapes Route 53 stores for any character but letters, digits, hyphen, underscore and the asterisk; names with such characters are taken as stored as they are.
- Route 53's own rules about which record types may share a name, and its quotas.
- The AWS SDK, credentials, sessions, metrics, logging, event filters, conditions and status fields.
- Creation and deletion of transit gateways and prefix lists themselves, subnet choice, route tables, unpausing, Crossplane configuration.
- `Resolver.DeleteRule` across retries, and the conversion of Karpenter resources.
