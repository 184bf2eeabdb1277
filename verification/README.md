# The load balancer reconciler, in Dafny

A model of the part of the UpCloud cloud controller manager that keeps one UpCloud load balancer in
step with each Kubernetes service of type LoadBalancer (`internal/loadbalancer`), and proofs about it.

The controller derives a desired configuration from a service, its nodes and a configuration
annotation; converts the live load balancer into the same form; sorts both in place; and, if they
differ, PUTs the desired one. Creation, deletion and certificate bundles are sequences of API calls
that can each fail, and two annotations on the service remember which load balancer is its own.

`dafny verify dfyconfig.toml` checks the whole project.

## How it is organised

| module | about |
|---|---|
| Ordering, Sorting | string order; stable sorting, and unstable sorting as any sorted permutation |
| Config, Shape, CanonicalForm, Compare | configurations; what they say up to order; sorted forms; the comparison |
| Ambiguity, Sharing | when the comparison is reliable; what it does to the live load balancer in memory |
| Naming, Nodes, Services, Builder | generated names; node selection, limit and validation; the default request |
| Overlays, DesiredState, DesiredFields, Reordering | the annotation merge; the desired request as a whole, and field by field; order of nodes and ports |
| Conversion | the live load balancer as a request, with the two places where it loses information |
| Cloud | the API as explicit state with a fault schedule |
| Certificates, Creation, Update, Convergence, Deletion | the protocols and what they achieve |
| Manager, Ownership, Counting, Runs, Lifecycle | entry points; what they do to the load balancers of a service; whole runs |
| Insensitivity, Limits, EndToEnd | order of inputs, node limiting and convergence, end to end |
| Outcomes, Controllers | what callers are told and can conclude from it; the entry points as they run |

Code that changes things step by step is a method (on a class where the source updates an object) that is
proved against a specification function or relation. The lemmas are about those. `Shape` is the
independent reference for the comparison: multisets at every level of nesting, and for lists that are sorted
stably the subsequence of each key. It does not mention sorting.

A call to the API is `Fine`, `Refused` (no effect, error) or `Lost` (takes effect, but its caller sees an
error). A schedule assigns one of these to every call, so a statement about all schedules is a statement about
failures at every step. Sorting with `slices.SortFunc` may have several outcomes, so an update is a relation;
the method that is proved against it shows that every input has a run. A panic ends an update or an ensure like
an error.

No proof depends on automatic induction (`--manual-lemma-induction`).

## Main results

- The comparison is sound always, and reliable exactly when names tell items apart (`ComparisonSound`,
  `ComparisonDecides`, `ReliableIffUnambiguous`). A node with two different internal addresses breaks that
  (`DuplicateNamesMayDiffer`). It is not transitive (`ComparisonNotTransitive`), and
  `ComparisonTransitive` says exactly when it is.
- Convergence: after an update that issued a PUT, the next one finds nothing to do exactly when the PUT could
  carry the difference (`PutCanReach`) and did not change the bundle that a frontend needs (`SameBundle`). The
  PUT body has no zone, network UUID or networks, and leaves out some empty fields; the conversion drops
  matching conditions and misplaces backend TLS configs; a load balancer whose generated name is no longer that
  of the service gets a bundle of the old name first. All of these appear in the condition of
  `UpdateConverges`, and the same holds for ensures and updates of the hosts (`EnsureConverges`,
  `HostsConverge`). If the comparison stops before it sorts, the body is not sorted, and then "the first backend"
  means the first one of the request rather than the first one by name.
- The number of load balancers of a service, over every run of ensures, updates, deletes, edits and foreign
  changes, with calls failing anywhere and whether or not the annotation is up to date, is what it was plus the
  ensures that make one minus the deletes that remove one (`RunCounts`). Which ones do is read off the inputs and
  the schedule (`Makes`, `Removes`).
- At most one load balancer per service, which the annotation names, over every run, exactly until a creation
  loses its reference or a delete removes the load balancer (`RunStaysTracked`, `AtMostOneLoadBalancer`). A
  creation loses it if the response to the create call is lost, the final refresh fails, or the patch of the
  annotations is refused (`LosesReference`, `LosesByOutcome`). A stale annotation, as a delete leaves it, is never
  rewritten, and no later delete removes anything. After a delete the service has exactly as many load balancers
  as ensures have made since, so at most one exactly if at most one ensure makes one (`StaleAnnotationLeaks`,
  `AtMostOneAfterDeletion`); every ensure does whose lookup is answered, whose request can be derived and whose
  create call is not refused (`StaleMakes`).
- At most one certificate bundle per service, over every run in which others leave the bundles alone, deletes
  and any number of lost load balancers included; bundles of other names are never touched (`OnlyOwnBundle`).
  The bundle goes with the annotated load balancer unless something still needs it, whatever the user overrode
  in between (`BundleOverLife`). While the bundle of that name does not cover the host name of a load balancer,
  as when two load balancers share the name, that load balancer gets no certificate (`ProvisionSucceeds`).
  Deletion can be resumed after any failures (`DeletionResumes`).
- What callers are told: an ensure or update that does not fail leaves the service with a load balancer that its
  annotation names and whose configuration was as desired or has been PUT (`NotFailedIsTracked`, `FoundOutcome`,
  `HostsOutcome`); a creation does not fail exactly if each of its calls and the patch are answered (`NewOutcome`,
  `CreationCompletes`); a delete succeeds once no call fails, whether or not there is anything left
  (`NothingToDelete`, `DeleteGoesThrough`).
- The desired request, field by field: when there is one, and where each of its fields comes from
  (`DesiredOutcome`, `DesiredScalars`, `DesiredFrontends`, `DesiredBackends`).
- The order of nodes and ports does not decide whether there is a PUT (`EnsureReordered`).
- Node limiting keeps the oldest nodes (`LimitedKeepsOldest`) and swaps at most one node for one that joins or
  leaves (`LimitedAfterJoin`, `LimitedAfterLeave`). Updates of the hosts ignore the limit. Ensure and update disagree, for good, exactly if
  it cuts off a node with an internal address and some backend takes its members from the nodes
  (`LimitedOutcome`, `EnsureAndHostsFlap`, `EnsureAndHostsAgree`).
- Generated names do not identify services; `LoadBalancerNamesCollide` says exactly when two coincide.

Where code and documentation disagree the code is followed: `README.md:76-77` of the repository says that
reserved labels are ignored, `internal/loadbalancer/utils.go:367-371` rejects them.

## Assumptions about the API

Bundle names are unique and names and host names are echoed; a bundle that a frontend or backend refers to
cannot be deleted (409); a PUT stores exactly the fields it carries; identifiers are never reused; backend TLS
configs have names. Plans, zones and the private network of the nodes do not change while the controller
runs (`Env`). Runs for one service are sequential and read the current annotations.

## Model

| member | source | states |
|---|---|---|
| `Ordering.CompareStringsTransitive` | internal/loadbalancer/compare.go:82-129 | string comparison, byte-wise and shorter prefix first, is transitive |
| `Ordering.CompareStringsLexical` | internal/loadbalancer/compare.go:82-129 | a string comes before another exactly if it is a proper prefix of it, or has the smaller byte where they first differ |
| `Ordering.ByKeyIsPreorder` | internal/loadbalancer/compare.go:82-129 | every comparison function made from a string key orders all values consistently; only values of equal key tie |
| `Sorting.StableSortIsStable` | internal/loadbalancer/compare.go:104-112 | stable insertion is sorted and keeps the order within every key: the stable sort exists |
| `Sorting.StableSortsEqualIffSameTies` | internal/loadbalancer/compare.go:104-112 | two sequences have equal stable sorts exactly when, for every key, their subsequences of that key are identical |
| `Sorting.GroupsAreTies` | internal/loadbalancer/compare.go:104-112 | the same, stated with a map from key to subsequence, in both directions |
| `Sorting.SortDetermined` | internal/loadbalancer/compare.go:92-128 | an unstable sort by a key has one outcome exactly when elements of one key are equal |
| `Sorting.SortVaries` | internal/loadbalancer/compare.go:92-128 | two different elements of one key give the sort two outcomes |
| `Sorting.GroupsOfDistinct` | internal/loadbalancer/compare.go:83-91 | with distinct keys, equal groups and being a permutation are the same thing |
| `Compare.CreateRequest.SortSlices` | internal/loadbalancer/compare.go:82-129 | in-place sorting of all lists at all levels, in the source's order of steps, leaves a canonical form of the old value: stable where the source sorts stably, any sorted permutation elsewhere |
| `Compare.CreateRequest.SortRules` | internal/loadbalancer/compare.go:101-112 | the rules of one frontend are sorted and their actions and matchers stably sorted by type; nothing else in the frontend list changes |
| `Compare.CreateRequestsEqual` | internal/loadbalancer/compare.go:16-80 | the comparison is sound for all inputs, and decides equality up to order when one side is unambiguous; both requests end as given (early mismatch) or canonical |
| `Compare.ComparisonOnlyReorders` | internal/loadbalancer/compare.go:57-58 | on every path both requests keep their scalars and describe the same items at every level: the PUT body carries exactly the desired items |
| `Compare.ComparisonSound` | internal/loadbalancer/compare.go:57-79 | a nil error implies the same configuration up to reordering, for all inputs |
| `Shape.SameConfigurationReads` | internal/loadbalancer/compare.go:57-79 | what the same configuration means: equal scalars, and for every item of every list at every level a counterpart that is equal field by field |
| `Compare.ComparisonDecides` | internal/loadbalancer/compare.go:16-80 | if names tell the items of one side apart, the error is nil exactly when the scalars agree and every list at every level is a permutation of its counterpart, actions and matchers type by type in order |
| `Compare.ComparisonSymmetric` | internal/loadbalancer/compare.go:16-80 | under the same condition the comparison is reflexive and symmetric |
| `Compare.ComparisonTransitive` | internal/loadbalancer/compare.go:32-39 | it is transitive exactly when the middle request does not leave open a maintenance field on which the outer two differ |
| `Compare.ComparisonNotTransitive` | internal/loadbalancer/compare.go:32-39 | a request without a maintenance day is equal to two requests that differ only in their maintenance days, which are not equal to each other |
| `Shape.DistinctIsUnambiguous` | internal/loadbalancer/compare.go:92-128 | distinct names tell all items apart |
| `Ambiguity.RequestVaries` | internal/loadbalancer/compare.go:82-129 | a request in which names do not tell different items apart has at least two sorted forms |
| `Ambiguity.ReliableIffUnambiguous` | internal/loadbalancer/compare.go:16-80 | every run of the comparison of two requests gives the right verdict exactly when they differ anyway or names tell their items apart |
| `Ambiguity.DuplicateNamesMayDiffer` | internal/loadbalancer/utils.go:148-152 | the default configuration of a service is reliably equal to itself exactly when no node has two different internal addresses, or there are no ports |
| `CanonicalForm.CanonicalKeepsShape` | internal/loadbalancer/compare.go:82-129 | a canonical form has the scalars and the shape of the original |
| `CanonicalForm.CanonicalSorted` | internal/loadbalancer/compare.go:82-129 | a canonical form is sorted at every level, although rules are rewritten after and frontends and backends before their own sort |
| `CanonicalForm.SortedRequestDetermined` | internal/loadbalancer/compare.go:60-77 | two sorted requests of one unambiguous shape are equal list by list, the reason why comparing positions suffices |
| `Sharing.SortConverted` | internal/loadbalancer/compare.go:82-129 | sorting all lists of a copy in place reorders, in the live load balancer, the labels and each rule's matchers and actions stably and each frontend's networks somehow, all in their places; every other list of the load balancer stays as it is, although the lists copied from it (networks, resolvers, rules, TLS configs, members, frontends, backends, addresses) are sorted as well |
| `Sharing.ConvertLists` | internal/loadbalancer/loadbalancer_request.go:145-247 | the conversion makes such a copy: labels, networks of frontends, matchers and actions are the lists of the load balancer, all others are new; it panics exactly if a backend TLS config is out of range |
| `Sharing.ReorderedKeepsShape` | internal/loadbalancer/loadbalancer_request.go:242 | so the live load balancer still describes the same, frontend by frontend |
| `Naming.LoadBalancerNameBounds` | internal/loadbalancer/utils.go:191-215 | a generated name is nonempty and at most 64 long, and is the dash-joined parts exactly when each part fits its budget; lengths handed to the shortener are never negative |
| `Naming.LoadBalancerNamesCollide` | internal/loadbalancer/utils.go:191-208 | two services of one cluster get the same name exactly when the kept parts of their namespaces and names are equal, or the longer namespace continues the shorter one with a dash and takes over the start of the other name |
| `Naming.UncutNamesCollide` | internal/loadbalancer/utils.go:191-208 | for instance team-a/web and team/a-web, although nothing of them is cut |
| `Naming.CertBundleNameBounds` | internal/loadbalancer/utils.go:375-384 | a bundle name is at most 64 long, is the start of the name and -tls, is never the needs-certificate token, and two nonempty names share it exactly when their first 60 bytes agree |
| `Naming.DecimalInjective` | internal/loadbalancer/utils.go:177-182 | different integers print differently |
| `Naming.DecimalValue` | internal/loadbalancer/utils.go:177-189 | a number is printed as its decimal numeral, without a leading zero |
| `Naming.PortNamesDistinct` | internal/loadbalancer/utils.go:177-182 | port names are distinct exactly when no two given names, no two unnamed ports and no name of the form config_N collide |
| `Naming.ValidateUserDefinedLabels` | internal/loadbalancer/utils.go:356-373 | labels are accepted exactly when none of their keys is reserved |
| `Nodes.SelectNodesByLabels` | internal/loadbalancer/utils.go:55-66 | the nodes that match, in order; all of them for a nil selector |
| `Nodes.LimitNodes` | internal/loadbalancer/loadbalancer.go:248-280 | the nodes unchanged without a bound or within it; else as many as the bound, each created earlier than every node left out, or at the same time and lexicographically first by name; a panic exactly for a negative bound |
| `Nodes.LimitedByRank` | internal/loadbalancer/loadbalancer.go:259-277 | without reference to sorting: a node is kept exactly when fewer nodes than the bound were created earlier, or at the same time and lexicographically first by name |
| `Nodes.LimitedKeepsOldest` | internal/loadbalancer/loadbalancer.go:259-277 | as many nodes as the bound allows are kept, and each is older than every node left out, by creation time and then by name |
| `Nodes.LimitedPermutation` | internal/loadbalancer/loadbalancer.go:259-277 | the kept nodes do not depend on the order of the list |
| `Nodes.LimitedAfterJoin` | internal/loadbalancer/loadbalancer.go:263-277 | when a node joins a full list, the kept set changes only if the newcomer is older than the last kept node, and then exactly that node is swapped out |
| `Nodes.NewestChangesNothing` | internal/loadbalancer/loadbalancer.go:259-277 | a node created later than all others leaves the kept set of a full list as it is |
| `Nodes.LimitedAfterLeave` | internal/loadbalancer/loadbalancer.go:263-277 | when a node leaves that was not kept nothing changes; when it was, exactly one node takes its place |
| `Nodes.LastKeptIsLast` | internal/loadbalancer/loadbalancer.go:264-277 | the last kept node is kept and all other kept nodes are older |
| `Nodes.ValidateLoadBalancerNodes` | internal/loadbalancer/loadbalancer_request.go:110-126 | nodes are valid exactly when there are some, all are annotated, and all agree on the private network |
| `Builder.BackendFromServicePort` | internal/loadbalancer/utils.go:130-175 | the nested loops build the backend that the specification function describes |
| `Builder.CreateLoadBalancerRequest` | internal/loadbalancer/loadbalancer_request.go:38-87 | an error exactly for local traffic policy without a health check port, else the default request of the service; under local policy every backend has the HTTP health check of the worker nodes, under any other a TCP one |
| `Builder.DefaultScalars` | internal/loadbalancer/loadbalancer_request.go:44-66 | name, plan, zone, status and the two networks of the default request, the private one with the network of the nodes |
| `Builder.DefaultFrontendFields` | internal/loadbalancer/utils.go:108-128 | a frontend takes HTTP on the port of the service, from the public and the private network, and is named as given or config_ and the port |
| `Builder.DefaultBackendFields` | internal/loadbalancer/utils.go:130-182 | a member is in a backend exactly if it is, field by field, the static member at an internal address of a node on the node port; local policy gives the HTTP check of the node port for health checks, any other the TCP check |
| `Builder.MembersAreAddresses` | internal/loadbalancer/utils.go:138-154 | a member is in the backend exactly when it is one internal address of one of the nodes, and there are as many members as such addresses |
| `Builder.RequestStructure` | internal/loadbalancer/loadbalancer_request.go:67-84 | one frontend and one backend per port in port order, every default backend reference resolves, and names are distinct exactly when the ports are told apart |
| `Builder.MemberNamesDistinct` | internal/loadbalancer/utils.go:138-154 | members of distinct nodes have distinct names exactly when no node has several internal addresses |
| `Builder.MembersUnambiguous` | internal/loadbalancer/utils.go:138-154 | members of one name are the same exactly when the internal addresses of each node agree |
| `Overlays.MergeLoadBalancerBackends` | internal/loadbalancer/utils.go:267-298 | the loop computes the merge that the lemmas below are about |
| `Overlays.MergeLoadBalancerFrontends` | internal/loadbalancer/utils.go:300-345 | the same for frontends, with the error for use_backend actions wherever they occur |
| `Overlays.BackendMergeIsRightBiased` | internal/loadbalancer/utils.go:271-297 | position by position, what the user sets stays up to the health check of local policy, and what is empty comes from the first default of that name; the name itself changes only in the single unnamed case |
| `Overlays.FrontendMergeIsRightBiased` | internal/loadbalancer/utils.go:304-334 | the same for all seven fields of a frontend |
| `Overlays.BackendMergeIdempotent` | internal/loadbalancer/utils.go:267-298 | merging a merged result with the same defaults changes nothing |
| `Overlays.FrontendMergeIdempotent` | internal/loadbalancer/utils.go:300-345 | the same for frontends, and no use_backend action survives a successful merge |
| `Overlays.DefaultsAreSanitized` | internal/loadbalancer/utils.go:284-295 | default properties are a fixed point of the sanitising step, so that the sharing of properties between backends and defaults is harmless |
| `Overlays.UpdatePlan` | internal/loadbalancer/loadbalancer_request.go:137-143 | every member of every backend gets the session limit of the plan, in place, and nothing else changes |
| `Overlays.MergeConfig` | internal/loadbalancer/utils.go:217-265 | the request becomes the merge of its old value with the annotation, or the error of the first failing check in the source's order, or, for the annotation null, the nil pointer panic |
| `DesiredState.NewCreateRequest` | internal/loadbalancer/upcloud_service.go:198-217 | naming, building, labelling and merging together compute the desired request or its error |
| `DesiredFields.DesiredOutcome` | internal/loadbalancer/upcloud_service.go:198-217 | which error, in the order of the checks: no health check port, an annotation that cannot be decoded, null, an unknown plan, a use_backend action, a reserved label; and a request otherwise |
| `DesiredFields.MergeScalars` | internal/loadbalancer/utils.go:229-264 | what the annotation sets wins over the default, scalar by scalar and for resolvers and networks; its addresses are taken, and its labels come before the default ones |
| `DesiredFields.DesiredScalars` | internal/loadbalancer/upcloud_service.go:198-217 | every field of the desired request outside of frontends and backends, in terms of the annotation, the service, the settings, network and zone |
| `DesiredFields.ReservedLabels` | internal/loadbalancer/loadbalancer_request.go:89-108 | of the reserved labels a request has exactly those with the cluster ID, cluster name, generated name and traffic policy |
| `DesiredFields.GeneratedNameReads` | internal/loadbalancer/upcloud_service.go:203-207 | the generated name starts with the cluster ID of the settings, or without one with the cluster name, cut to 36 and followed by a dash; short parts are joined uncut |
| `DesiredFields.DesiredFrontends` | internal/loadbalancer/utils.go:300-345 | one frontend per port without user frontends; else those of the user, each field as the user set it or from the first port of that name |
| `DesiredFields.DesiredBackends` | internal/loadbalancer/utils.go:229-298 | one backend per port without user backends, its members the internal addresses with the session limit of the final plan; else those of the user, each field as the user set it, up to an empty health check under local policy, or from the first port of that name |
| `DesiredState.GeneratedNameSurvives` | internal/loadbalancer/utils.go:402-418 | after any successful merge the generated-name label occurs exactly once, is nonempty, and is the one found again after sorting |
| `DesiredState.PlanPropagates` | internal/loadbalancer/utils.go:240-249 | after a successful build and merge every node-derived member has the session limit of the plan that the final request names |
| `Reordering.DesiredReorderedNodes` | internal/loadbalancer/utils.go:138-154 | permuting the nodes gives the same error or the same configuration up to order |
| `Reordering.DesiredReorderedPorts` | internal/loadbalancer/loadbalancer_request.go:72-84 | permuting the ports, when they are told apart, gives the same error or the same configuration up to order, through the merge |
| `Reordering.DesiredUnambiguous` | internal/loadbalancer/utils.go:267-345 | names tell the items of the desired request apart when they do so in its inputs, so that the comparison decides |
| `Conversion.ConvertBackendTls` | internal/loadbalancer/loadbalancer_request.go:198-204 | the loop with its misplaced index: what it computes, and exactly when it runs out of range |
| `Conversion.PrivateNetworkReads` | internal/loadbalancer/utils.go:425-437 | the first private network of the reserved name, or else the first private one, or none |
| `Conversion.LoadBalancerToCreateRequest` | internal/loadbalancer/loadbalancer_request.go:145-247 | the conversion loop by loop, including the dropped matching condition and the possible panic |
| `Conversion.BackendTlsSurvives` | internal/loadbalancer/loadbalancer_request.go:198-204 | the TLS configs of a backend survive, in order or up to order, exactly when there are none or it is the first backend and has one |
| `Conversion.ConversionInvertsCreation` | internal/loadbalancer/loadbalancer_request.go:145-247 | converting what a faithful API stores gives back the request exactly when no rule has a matching condition and no backend TLS config is misplaced |
| `Conversion.FrontendShapesConverted` | internal/loadbalancer/loadbalancer_request.go:155-183 | frontends survive the conversion up to order exactly when no rule has a matching condition |
| `Conversion.BackendShapesConverted` | internal/loadbalancer/loadbalancer_request.go:184-212 | backends survive the conversion up to order, without a panic, exactly when no TLS config is misplaced |
| `Certificates.GetCertificateBundleByName` | internal/loadbalancer/upcloud_service.go:303-314 | one list call, and the first dynamic bundle of the name |
| `Certificates.GetOrCreateCertificateBundle` | internal/loadbalancer/upcloud_service.go:280-301 | finds or creates as the specification function does, call by call |
| `Certificates.AutoProvisionCertificates` | internal/loadbalancer/upcloud_service.go:261-278 | the frontends are overwritten in place and the cloud changed as the specification function says; the first error ends the loop |
| `Certificates.ProvisionSharesOneBundle` | internal/loadbalancer/upcloud_service.go:261-301 | whatever fails, a run creates at most one bundle; on success all frontends that needed a certificate share it and the others are untouched |
| `Certificates.ProvisionedReads` | internal/loadbalancer/utils.go:439-452 | a frontend that takes HTTP on port 443 without a TLS config, or has one with the token, ends with the bundle, which covers the host name; every other stays as it is |
| `Certificates.ProvisionWhenServed` | internal/loadbalancer/upcloud_service.go:285-293 | while a bundle of that name covers the host name nothing is created and that bundle is handed out |
| `Certificates.ProvisionSettles` | internal/loadbalancer/utils.go:439-452 | after a successful run no frontend needs a certificate, and running again on the outcome or on the original frontends creates nothing |
| `Certificates.ProvisionSucceeds` | internal/loadbalancer/upcloud_service.go:286-301 | unless a call fails, provisioning succeeds exactly if no frontend needs a certificate, or the bundle of that name covers the host name, or no bundle has the name |
| `Certificates.CertifiedUnambiguous` | internal/loadbalancer/upcloud_service.go:269-274 | filling in certificates makes nothing ambiguous |
| `Deletion.DeleteLoadBalancerRun` | internal/loadbalancer/upcloud_service.go:316-347 | the three phases call by call, with 404 and 409 tolerated where the source does |
| `Deletion.DeleteRunEffects` | internal/loadbalancer/upcloud_service.go:316-347 | whatever fails: other load balancers and bundles unchanged, no work added, every change is progress; on success the load balancer is gone, and the bundle too unless still needed; without failures the run succeeds |
| `Deletion.RunRemovesIt` | internal/loadbalancer/upcloud_service.go:316-347 | the load balancer is gone after a run exactly if all calls before the last one are tolerated and the last one is not refused |
| `Deletion.NamedBundleDeleted` | internal/loadbalancer/upcloud_service.go:331-341 | the bundle step goes through with the bundle gone, or left exactly because some load balancer uses it |
| `Deletion.DeletionResumes` | internal/loadbalancer/loadbalancer.go:218-231 | after any number of failed runs, refetching and running again never adds work or touches others, and a run without failures finishes; the bundle is left exactly if another load balancer or a backend of this one needs it |
| `Update.UpdateLoadBalancer` | internal/loadbalancer/upcloud_service.go:155-196 | derive, provide certificates, convert, compare in place and PUT: a possible run of the specification |
| `Update.ReplaceIfDifferent` | internal/loadbalancer/upcloud_service.go:171-195 | a PUT is made exactly when the comparison reports a difference, and its body is the desired request as the comparison left it |
| `Outcomes.UpdateRequestMade` | internal/loadbalancer/upcloud_service.go:155-170 | an update gets to its comparison exactly if the load balancer has a private network, the plans are listed, the service and its annotation allow a request, and the certificates are there |
| `Outcomes.UpdateOutcome` | internal/loadbalancer/upcloud_service.go:155-196 | then it ends unchanged exactly if the live configuration is as desired up to order, where names tell items apart, and else changed exactly if the PUT is answered; without a request it fails, and on a conversion that panics it crashes |
| `Outcomes.UpdateSucceeds` | internal/loadbalancer/upcloud_service.go:155-196 | without a failing call it succeeds once there is a request and the load balancer can be converted |
| `Convergence.AfterPutSameConfiguration` | internal/loadbalancer/upcloud_service.go:175-187 | the load balancer as the PUT leaves it is equal to the desired request up to order exactly when zone, network UUID and networks agree already, no emptied field is omitted, and the conversion loses nothing |
| `Convergence.NextComparison` | internal/loadbalancer/compare.go:16-80 | the next comparison then reports no difference, and reports one otherwise |
| `Convergence.UpdateConverges` | internal/loadbalancer/upcloud_service.go:155-196 | an update that issued a PUT, followed by one with the same inputs and no failing call, ends in no change exactly when the PUT could reach the desired configuration and the bundle name stays the same or no built frontend needs a certificate |
| `Convergence.OtherBundle` | internal/loadbalancer/upcloud_service.go:264-274 | if the PUT changes the name of the bundle that a frontend needs, the next update always finds a difference |
| `EndToEnd.EnsureConverges` | internal/loadbalancer/loadbalancer.go:122-149 | an ensure that issued a PUT, followed by one that finds the same load balancer and has no failing call: the second changes nothing and is done exactly under the condition of `UpdateConverges`, taken for the selected and limited nodes |
| `EndToEnd.HostsConverge` | internal/loadbalancer/loadbalancer.go:184-208 | the same for updates of the hosts, with the selected nodes |
| `Creation.CreateRequestFromService` | internal/loadbalancer/upcloud_service.go:134-153 | a request exactly if the nodes are in one private network, zone and network are known, the three calls are answered, and the service and its annotation allow it; unless the annotation sets them, it has the zone of the nodes and their private network |
| `Creation.RequestMade` | internal/loadbalancer/upcloud_service.go:134-153 | the same of the specification function, with three calls, and none for nodes that are not valid |
| `Creation.RequestPlaced` | internal/loadbalancer/upcloud_service.go:144-152 | zone, networks and labels of the request |
| `Creation.CreateLoadBalancerRun` | internal/loadbalancer/upcloud_service.go:104-132 | creation without frontends, certificates, frontends one by one, refresh; and which load balancer the caller sees after each failure |
| `Outcomes.CreationCompletes` | internal/loadbalancer/upcloud_service.go:104-132 | a creation ends without an error exactly if there is a request, the create call is answered, the certificates are there, and all frontend calls and the refresh are answered |
| `Outcomes.CreatedReads` | internal/loadbalancer/upcloud_service.go:104-132 | the load balancer it returns stores the request, except that frontends that ask for a certificate have the bundle of its name |
| `Outcomes.CreatedIsLabelled` | internal/loadbalancer/loadbalancer_request.go:89-108 | whatever a creation leaves behind is matched by the labels of its cluster and its generated name |
| `Creation.CreateRunEffects` | internal/loadbalancer/upcloud_service.go:104-132 | whatever fails, at most one load balancer and at most one bundle, of the name that belongs to it, are added and nothing else changes; what the caller sees is the new one |
| `Creation.AddFrontendsByFaults` | internal/loadbalancer/upcloud_service.go:118-125 | adding frontends stops after the first call that is not fine, wherever that is |
| `Creation.DesiredFromCreated` | internal/loadbalancer/utils.go:425-437 | deriving the request again from zone and private network of the created load balancer gives the request it was created from |
| `Creation.CreateThenUpdate` | internal/loadbalancer/upcloud_service.go:104-196 | an update right after a creation without error changes nothing, exactly when there is a private network and the conversion loses nothing |
| `Controllers.Controller.GetLoadBalancer` | internal/loadbalancer/upcloud_service.go:51-102 | one call; what is returned is in the cloud and is the one of the ID annotation, or without one the only one with the three labels; not found means there is none |
| `Controllers.Controller.SelectNodes` | internal/loadbalancer/loadbalancer.go:103-111 | exactly the nodes that both selectors match; an error exactly for a selector that cannot be parsed while the first selector leaves nodes |
| `Controllers.Controller.EnsureLoadBalancer` | internal/loadbalancer/loadbalancer.go:92-120 | lookup, selection, limit and the two branches; from a tracked state it keeps track exactly if it loses no reference, and always if it does not fail, leaves other services alone and ends with at most one load balancer |
| `Controllers.Controller.EnsureExistingLoadBalancer` | internal/loadbalancer/loadbalancer.go:122-149 | retry and no change while not running; otherwise at most the configuration of this load balancer is replaced and its own bundle added |
| `Controllers.Controller.EnsureNewLoadBalancer` | internal/loadbalancer/loadbalancer.go:151-178 | at most one load balancer is added and others stay; annotations change only from no ID to the new one; it does not fail exactly if the creation ends without an error and, without an ID, the patch is answered, and is done exactly if in addition the load balancer runs |
| `Controllers.Controller.Patch` | internal/loadbalancer/utils.go:86-97 | both annotations are written, or none, exactly if the call is refused; success is reported exactly if the call was fine |
| `Controllers.Controller.UpdateHosts` | internal/loadbalancer/loadbalancer.go:184-208 | selection without limit, then the update; from a tracked state it stays tracked and leaves other services alone; success means that the load balancer is up to date for the selected nodes or has been PUT |
| `Controllers.Controller.EnsureLoadBalancerDeleted` | internal/loadbalancer/loadbalancer.go:218-231 | from a tracked state, success means that the service has no load balancer left, and other services are left alone in any case; nothing to delete is a success, and so is any delete without a failing call on frontends of distinct names |
| `Outcomes.LookupReads` | internal/loadbalancer/upcloud_service.go:51-102 | by ID, or by the three labels of the configured or given cluster name and the name annotation: missing exactly if there is none and the call is answered, and found only if it is the only one |
| `Outcomes.NewOutcome` | internal/loadbalancer/loadbalancer.go:151-178 | an ensure that creates does not fail exactly if the creation ends without an error and, without an ID, the patch is answered; then it is done or to be retried as the load balancer runs or not, and the annotations name it |
| `Outcomes.NotFailedIsTracked` | internal/loadbalancer/loadbalancer.go:92-178 | from a tracked state, an ensure that does not fail leaves the service with the annotation of its only load balancer |
| `Outcomes.FoundOutcome` | internal/loadbalancer/loadbalancer.go:122-149 | an ensure that finds a load balancer is to be retried while it does not run; otherwise it fails exactly if its update does, is to be retried exactly if the load balancer cannot be fetched again after a PUT, and is done else; unless it fails, the load balancer was up to date or has been PUT |
| `Outcomes.EnsureStops` | internal/loadbalancer/loadbalancer.go:96-116 | without an answer to the lookup, or with a selector or limit that is not valid, an ensure fails and changes nothing |
| `Outcomes.HostsOutcome` | internal/loadbalancer/loadbalancer.go:184-208 | an update of the hosts succeeds only if the load balancer is there and up to date for the selected nodes, or has been PUT |
| `Outcomes.HostsSucceed` | internal/loadbalancer/loadbalancer.go:184-208 | it succeeds if all calls are answered, the load balancer is there and can be converted, and there is a request |
| `Outcomes.NothingToDelete` | internal/loadbalancer/loadbalancer.go:218-228 | a delete that finds nothing succeeds exactly if its lookup is answered, and changes nothing |
| `Outcomes.DeleteGoesThrough` | internal/loadbalancer/loadbalancer.go:218-231 | without a failing call a delete succeeds, whether or not there is a load balancer, and leaves none |
| `Ownership.UpdateEffects` | internal/loadbalancer/upcloud_service.go:155-196 | whatever fails, an update at most replaces the configuration of its own load balancer and adds one bundle under the name that belongs to it |
| `Ownership.CreateKeepsOthers` | internal/loadbalancer/upcloud_service.go:104-132 | a creation adds at most one load balancer, owned by its service, and touches none of the others |
| `Ownership.LosesByOutcome` | internal/loadbalancer/upcloud_service.go:104-132 | the schedule of failures decides whether a creation ends without its caller knowing the load balancer: the create call is lost, all goes well until the refresh fails, or the patch is refused |
| `Ownership.EnsureStaysTracked` | internal/loadbalancer/loadbalancer.go:151-178 | an ensure keeps the annotations in step with the load balancers of the service exactly when it does not lose a reference; it never touches those of other services |
| `Counting.EnsureCounts` | internal/loadbalancer/loadbalancer.go:92-178 | whatever the annotation says, an ensure adds one load balancer exactly if it finds none, can derive a request and its create call is not refused, and none otherwise; an ID annotation is never rewritten |
| `Counting.DeleteCounts` | internal/loadbalancer/loadbalancer.go:218-231 | a delete removes the annotated load balancer exactly if it finds it and the last call is reached and not refused, and no other; after success the annotated one is gone |
| `Runs.RunCounts` | internal/loadbalancer/loadbalancer.go:92-231 | over every run, whether or not the annotation is up to date, the service has as many load balancers as at the start, plus those that ensures made, minus those that deletes removed |
| `Runs.RunStaysTracked` | internal/loadbalancer/loadbalancer.go:92-231 | over every run of ensures, updates, deletes, edits and foreign changes, with calls failing anywhere, the annotation tracks the load balancer exactly as long as no ensure loses a reference and no delete removes it |
| `Runs.AtMostOneLoadBalancer` | internal/loadbalancer/loadbalancer.go:92-231 | at every moment of such a run the service has at most one load balancer, which the annotation names, and none without an annotation |
| `Runs.DeletionLeavesStale` | internal/loadbalancer/loadbalancer.go:218-231 | a successful delete leaves the service without a load balancer but with the ID annotation |
| `Runs.StaleStep` | internal/loadbalancer/loadbalancer.go:155 | nothing that happens rewrites a stale annotation or removes a load balancer of the service |
| `Runs.StaleAnnotationLeaks` | internal/loadbalancer/loadbalancer.go:151-178 | over every run from a stale annotation, with any calls failing, the annotation stays, no load balancer of the service goes away, and there are as many more as ensures made one |
| `Runs.AtMostOneAfterDeletion` | internal/loadbalancer/loadbalancer.go:151-231 | after a successful delete the service has at most one load balancer exactly if at most one ensure since makes one |
| `Lifecycle.UpdateKeepsName` | internal/loadbalancer/utils.go:402-418 | whatever the user overrides and however an update ends, the name that the bundle name derives from stays |
| `Lifecycle.RunKeepsName` | internal/loadbalancer/utils.go:375-418 | the same for the annotated load balancer over every run, however many load balancers are lost or deleted in it |
| `Lifecycle.OnlyOwnBundle` | internal/loadbalancer/upcloud_service.go:261-341 | at every moment of any run in which others leave the bundles alone, deletes included, there is at most one bundle of the name that belongs to the service, and all other bundles are as at the start |
| `Lifecycle.BundleNameOverLife` | internal/loadbalancer/upcloud_service.go:316-341 | after any such run a successful delete of the annotated load balancer looks for the bundle under the name used to create it, leaves it exactly if still needed, and touches no other; if that load balancer is gone, the delete changes nothing |
| `Lifecycle.AtMostOneBundle` | internal/loadbalancer/upcloud_service.go:261-301 | at every moment of such a run up to its first delete, the bundles are those of its start, or those and one more of the name that belongs to the service |
| `Lifecycle.BundleOverLife` | internal/loadbalancer/upcloud_service.go:316-347 | a successful delete of the annotated load balancer at the end leaves the bundles as they were at the start, or, exactly if something still needs the one that was made, with that one |
| `Limits.LimitedMembers` | internal/loadbalancer/loadbalancer.go:259-277 | the limit keeps all members exactly if it cuts off no node with an internal address |
| `Limits.LimitedOutcome` | internal/loadbalancer/loadbalancer.go:193-201 | ensure and update desire the same up to order exactly if the limit cuts off no internal address or no merged backend takes its members from a default |
| `Limits.LimitOfOne` | internal/loadbalancer/loadbalancer.go:193-201 | for instance with a limit of one, two nodes with internal addresses, and a service with a port and without an overlay |
| `Limits.LimitOnlyOnEnsure` | internal/loadbalancer/loadbalancer.go:112-114 | so a configuration, with any certificates, can be up to date for both exactly then |
| `Limits.LimitFlaps` | internal/loadbalancer/loadbalancer.go:193-201 | in the other cases an update with all nodes and one with the limited nodes never both end without a change on one load balancer; otherwise they end the same way |
| `EndToEnd.EnsureAndHostsFlap` | internal/loadbalancer/loadbalancer.go:92-208 | an ensure and an update of the hosts of one load balancer, from one service and one list of nodes, never both find nothing to do in those cases, whatever happens in between |
| `EndToEnd.EnsureAndHostsAgree` | internal/loadbalancer/loadbalancer.go:92-208 | in all other cases their updates end the same way in the same state |
| `Insensitivity.ProvisionReordered` | internal/loadbalancer/upcloud_service.go:261-278 | on reordered frontends, provisioning makes the same calls, ends in the same state and gives the same frontends up to order |
| `Insensitivity.UpdateAlike` | internal/loadbalancer/upcloud_service.go:155-196 | two updates whose requests are built alike end the same way, with a PUT in both or in neither; the cloud ends identical if the comparison reached the sorting, and identical up to order otherwise |
| `Insensitivity.UpdateReordered` | internal/loadbalancer/upcloud_service.go:155-196 | in particular with nodes and ports in another order |
| `Insensitivity.EnsuredNodesReordered` | internal/loadbalancer/loadbalancer.go:103-114 | selection and limit of reordered nodes give the same nodes up to order |
| `Insensitivity.EnsureReordered` | internal/loadbalancer/loadbalancer.go:92-149 | the same for a whole ensure of a running load balancer, found by ID or by labels, from the full list of nodes: one verdict of the two updates, one result |

## Left out

- Nil and empty slices are identified, which `reflect.DeepEqual` tells apart: slices are taken as normalised.
- Sharing between objects is modelled where the conversion causes it (`Sharing`), separately from the comparison itself, which works on its own copy. Properties shared between backends and defaults are copied; `DefaultsAreSanitized` shows that what is written through that sharing changes nothing.
- Timestamps and other fields of a live load balancer that only the API writes, apart from DNS name and running state.
- Fields that are only copied and compared are bundled into one string each (timeouts, resolver settings, bodies of actions and matchers, most properties).
- Integer widths: ports, limits and counts are unbounded.
- Strings are sequences of bytes; no Unicode.
- Decoding of the YAML and JSON annotations: the decoded selector and overlay are inputs.
- Label selector semantics: a selector is an arbitrary predicate on labels.
- Nil nodes: node selection dereferences every node before the limit could see it.
- Objects that the SDK returns together with an error are taken as absent.
- Server and zone lookups: each is one call that answers or fails; which zone and network they lead to is an input, including the parent-zone rule.
- Logging, events, contexts, the mutex and timing; status objects and the name lookup that only wrap a load balancer.
- JSON encoding of the PUT body beyond which empty fields it omits.
- The owner of a load balancer in the model is history for stating "at most one"; no operation reads it, and the source has no such field.
- The wiring in `internal/cloud`, `internal/instance`, `internal/logger`, `internal/utils` and `cmd` would add only easy members.
- Convergence.UpdateConverges: is about runs in which no call of the second update fails; a failing call ends it with an error instead.
- Runs.RunCounts: is about annotations as the controller writes them; a user who writes an ID that is malformed or belongs to another service is not modelled.
- Runs.RunStaysTracked: foreign changes in these runs neither reuse identifiers nor add or remove load balancers of the service.
- Insensitivity.EnsureReordered: is about a load balancer that is found and running; otherwise nothing is compared or PUT.
- Lifecycle.OnlyOwnBundle: is about runs in which others leave the certificate bundles and the generated name alone; what others add is not bounded by this controller.
