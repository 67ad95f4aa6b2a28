# A verified model of the sing-box operator

The operator is a small configuration compiler. From a cluster of SingBoxNodes, ExternalOutbounds, Users, UserGroups
and EgressPolicies it produces a server config for each node and a client config for each user, rolls the node's pod
when the config changes, and collects usage counters. This project models that core and proves that the two artifacts
agree, that the rule lists mean what the policies say, that nothing depends on an accidental order, that pods roll
safely, and where every byte of a usage response ends up.

Loops over slices and maps are methods with the source's structure, each proved equal to a specification function on
values; the theorems are about those functions. Map iteration is an arbitrary order of the keys. The central ones are
stated twice over: on the compiler's own notions, and on `Intent`, which names none of them.

| file | what it holds |
|---|---|
| `Ordering.dfy`, `Resources.dfy`, `Json.dfy` | orders and sorting; the custom resources; JSON values |
| `Engine.dfy`, `Routing.dfy` | the config compiler; first-match evaluation, refinement, order independence |
| `Controller.dfy`, `Collected.dfy` | collecting the compiler's input from a cluster; what a collected input satisfies |
| `Closure.dfy`, `Confinement.dfy`, `Dependency.dfy` | tag closure; where traffic can leave; which nodes an ExternalOutbound affects |
| `Endpoints.dfy`, `Client.dfy`, `Advertised.dfy`, `ClientTags.dfy`, `Inactive.dfy` | endpoint texts; the client config and its properties |
| `Intent.dfy` | what the resources of a cluster ask for, read directly off their fields |
| `Deciding.dfy`, `Governing.dfy`, `Serving.dfy` | the compiled config against that reading: which policy decides, which govern a node, who is let in, what is relayed |
| `ClientDeciding.dfy`, `Offering.dfy` | the client config against that reading: which policy acts, which ways are offered |
| `Agreement.dfy` | the client config against the server configs, and relays against their peers |
| `Template.dfy`, `Rearrangement.dfy`, `DnsGraph.dfy` | merging into a client template; rule order; DNS wiring |
| `ClientDocument.dfy`, `MergedDocument.dfy`, `MergedDns.dfy` | the merged document read back: policy rules, every section, and when there is one |
| `PodRoll.dfy` | the pod roll as a state machine over interleaved steps |
| `Counters.dfy`, `Usage.dfy` | counter names; merging, batches and byte conservation |
| `Witnesses.dfy` | concrete clusters and templates that meet the hypotheses, or show where a property fails |

Standing assumptions, named as predicates: `Collected.WellFormed` (names unique within their kind, node and external
names disjoint, relay ports not negative), `Routing.HashFreeUsers` and `Advertised.HashFreeNames` (Kubernetes names
have no `#`), `Agreement.Reconciled` and `Agreement.CompleteCredentials` (published endpoints are current, external
secrets complete), `Usage.Fits` (sums fit 64 bits).

## Properties that hold only under a condition

- A dual-role node always gets a rule to itself but its own outbound only when its whitelist admits it:
  `Closure.ReferenceClosure` and `Closure.ClusterReferenceClosure` give the exact condition,
  `Witnesses.SelfRuleDangles` a cluster that meets it.
- A recorded egress is preferred to the fresh resolution: `Collected.EgressIsGlobalIffFresh`, and
  `Witnesses.StaleEgressIsUsed`.
- A pass can update status although the matching pod is terminating or gone, when the hash changes and changes back:
  `PodRoll.FlippedHashReportsTerminatingPod` is such a run; `PodRoll.StatusMatchesPod` and
  `PodRoll.MisreportsOnlyReturningHash` give the exact condition.
- Nodes named `hk`, `jp`, `us`, `ai` or `direct` can collide with generated tags: `ClientTags.ClientTagsUnique`,
  and `Witnesses.NodeNamedHkCollides`.
- Merged DNS wiring can have a bootstrap cycle: `DnsGraph.DnsBootstrapSafety` gives the exact condition. The template's
  own references may form it (`Witnesses.SelfResolvingTemplateStaysCyclic`), a hostname proxy-dns falls back to itself
  (`Witnesses.HostnameProxyDnsStaysCyclic`), and the wiring itself closes one when the template's local server resolves
  through proxy-dns (`Witnesses.LeaningLocalClosesACycle`).
- After an ExternalOutbound is deleted the mapper misses the nodes of other regions whose policies it had made
  ambiguous: `Dependency.MissedAfterDeletion`, and `Witnesses.DeletionIsMissed`.
- Relayed traffic leaves a node directly if and only if the node has a rule or no other outbound:
  `Serving.RelayedIsUntouched`; `Serving.IdleRelayForwards` is the family that fails.
- Counters are reset when read, so bytes under names the collector does not recognise are lost: `Usage.Collector.Run`
  accounts for them.
- The two counter-name parsers differ on names with several `#`: `Counters.NormalizeImpliesParse`, and
  `Witnesses.ParsersDisagree`.

## Where code and documentation differ

The model follows the code.

- The repository's README says a route policy whose selector matches nothing is degraded; for clients
  (internal/apiserver/client_policy.go:50-56) and in collection (internal/controller/singboxnode_controller.go:346-380)
  it is inactive, while several matches are an error for clients.
- It says AllowedOutbounds gates discovery only and policies choose targets independently;
  internal/controller/egresspolicy_helpers.go:65-98 gates policy targets by region and both whitelists too, except a
  node's policy to itself. `Confinement.PoliciesAddNoTarget` states the consequence.
- api/v1alpha1/externaloutbound_types.go:114-118 says an ExternalOutbound with an empty region can still be reached by policy; by the same code it never is.

## Model

| member | source | states |
|---|---|---|
| `Engine.ResolvePolicyEgressName` | internal/configengine/engine.go:428-445 | in whatever order the two name-keyed maps are walked, the one name the selector matches among outbound nodes and externals, and "" when it matches none or several |
| `Engine.PolicyEgress` | internal/configengine/engine.go:393-396 | the recorded egress when there is one, else the local resolution |
| `Engine.PolicyAuthUsers` | internal/configengine/engine.go:418-426 | the virtual users u#target of exactly the users permitted the target, in user order |
| `Engine.BuildPolicyRules` | internal/configengine/engine.go:379-416 | the loop emits, policy after policy, the rules of each active policy: its match rule, then the guard that rejects the rest of its egress traffic when the fallback says so |
| `Engine.ResolveExternalOutbounds` | internal/configengine/engine.go:771-801 | the discovered externals that are usable (credentials complete, name not a node's), each once |
| `Engine.RouteTargets` | internal/configengine/engine.go:499-551 | the target list: peers, policy targets in listed (not run) order, the node itself when asked, usable externals, without repetition |
| `Engine.BuildRouteInbounds` | internal/configengine/engine.go:493-601 | one listener carrying every u#target entry, and one generic rule for each target that some user may use |
| `Engine.BuildUserInbounds` | internal/configengine/engine.go:643-655 | the direct listener of a node with no relay targets |
| `Engine.BuildOutboundNodeOutbounds` | internal/configengine/engine.go:668-707 | one relay dialer for each peer with a relay port whose whitelists admit the pair |
| `Engine.BuildExternalOutbounds` | internal/configengine/engine.go:851-857 | one remote dialer for each usable external |
| `Engine.BuildPolicyOutbounds` | internal/configengine/engine.go:457-491 | an outbound for each distinct target of the route policies, at its first mention |
| `Engine.DeduplicateByTag` | internal/configengine/engine.go:941-957 | the first entry under each tag, in order |
| `Engine.BuildInboundSide` | internal/configengine/engine.go:155-171 | listeners and generic rules of an inbound node, in relaying and in direct mode |
| `Engine.BuildExits` | internal/configengine/engine.go:172-188 | the deduplicated outbound list of a node, by role |
| `Engine.Compute` | internal/configengine/engine.go:139-226 | the whole compiler step by step equals the reference function `ConfigOf` that every theorem below is about |
| `Routing.VirtualUserInjective` | internal/configengine/engine.go:347-349 | u#n determines u and n when user names have no # |
| `Routing.PolicyRulesRefine` | internal/configengine/engine.go:379-416 | the policy rules alone decide as the walk over active policies in order does, and fall through exactly when it ends at outbound-n |
| `Routing.GenericRulesDecision` | internal/configengine/engine.go:583-598 | the generic rules send an identity to the one listed target that owns it, wherever it is listed, and otherwise match nothing |
| `Routing.FirstMatchRefinement` | internal/configengine/engine.go:379-426 | first-match evaluation of the compiled rules for any provisioned u#n and any destination is the reference decision: the first matching active policy in (priority, name) order, an earlier unmatched guard of n rejecting, else outbound-n |
| `Routing.TargetMembers` | internal/configengine/engine.go:499-551 | exactly which names are targets, and that none repeats |
| `Routing.GenericRulesDisjoint` | internal/configengine/engine.go:583-598 | the auth_user sets of two different targets share no identity |
| `Routing.GenericRulesContent` | internal/configengine/engine.go:583-598 | as a multiset, the generic rules are exactly one rule for each target with a permitted user |
| `Routing.PolicyOrderKeepsConfig` | internal/configengine/engine.go:292-307 | permuting the listed policies keeps policy rules, outbounds and final, and permutes the other rules and the user entries of the listeners |
| `Routing.PolicyOrderIndependence` | internal/configengine/engine.go:527-539 | permuting the listed policies changes the decision of no request, provisioned or not |
| `Resources.PolicySortPermutation` | internal/configengine/engine.go:300-306 | with distinct names the (priority, name) order does not depend on the listing |
| `Controller.ResolveEgressPolicy` | internal/controller/egresspolicy_helpers.go:15-45 | the error branches, and the selected nodes then externals in listed order |
| `Controller.CollectPeers` | internal/controller/singboxnode_controller.go:214-246 | the same-region peers both whitelists admit, indexed with the credentials that exist |
| `Controller.CollectExternals` | internal/controller/singboxnode_controller.go:252-279 | the same-region externals both whitelists admit whose names no node takes |
| `Controller.CollectUsers` | internal/controller/singboxnode_controller.go:281-340 | the credentials and per-user allow and deny sets |
| `Controller.AdmitPolicy` | internal/controller/singboxnode_controller.go:346-380 | whether a policy is admitted (selector, action, unique and connected target), and the resource behind its target |
| `Controller.CollectPolicies` | internal/controller/singboxnode_controller.go:342-380 | the admitted policies in order, and the resources behind their targets |
| `Controller.CollectInput` | internal/controller/singboxnode_controller.go:195-393 | the step-by-step collection equals the reference function `InputOf` of the cluster snapshot |
| `Collected.KnownAreClusterResources` | internal/controller/singboxnode_controller.go:214-279 | the name maps hold cluster resources under their own names, and the nodes among them are outbound nodes |
| `Collected.MayUseIsGroupAllows` | internal/controller/singboxnode_controller.go:300-339 | the engine's permission test on the collected sets is the permission of the user's group, open without one |
| `Collected.AdmittedFacts` | internal/controller/singboxnode_controller.go:346-380 | an admitted route policy has one cluster-wide candidate, connected to the node |
| `Collected.LocalResolutionIsGlobal` | internal/configengine/engine.go:428-445 | resolving an admitted selector over the filtered maps gives the unique cluster-wide target |
| `Collected.EgressIsGlobalIffFresh` | internal/configengine/engine.go:393-396 | the builders use that target if and only if the recorded egress is empty or equal to it |
| `Closure.CollectedIsGated` | internal/controller/singboxnode_controller.go:195-393 | a collected input meets what the closure theorem asks |
| `Closure.DedupFacts` | internal/configengine/engine.go:941-957 | deduplication keeps every tag, once, and invents no entry |
| `Closure.EmittedTargets` | internal/configengine/engine.go:172-188 | exactly which target tags an inbound node emits |
| `Closure.RuleClosedUnlessSelf` | internal/configengine/engine.go:540-543 | every routing rule names an emitted outbound, except possibly the node's own |
| `Closure.FinalEmitted` | internal/configengine/engine.go:1033-1045 | the final tag is an emitted outbound, for every input |
| `Closure.ReferenceClosure` | internal/configengine/engine.go:139-215 | emitted tags are unique, the final tag is emitted, and all rule targets are emitted if and only if the self rule does not dangle |
| `Closure.ClusterReferenceClosure` | internal/configengine/engine.go:172-178 | on a collected input the same, with the condition in terms of the cluster: roles, whitelist, a permitted user, and no relay-port policy targeting the node |
| `Confinement.KnownNodeIsPeerOrSelf` | internal/controller/singboxnode_controller.go:214-246 | policies bring in no node besides the discovered peers and the node itself |
| `Confinement.KnownExternalIsDiscovered` | internal/controller/singboxnode_controller.go:252-279 | policies bring in no external besides the discovered ones |
| `Confinement.UsableIsAutodiscovered` | internal/configengine/engine.go:447-455 | whatever egress a policy names, current or stale, it is usable only when discovered anyway |
| `Confinement.PoliciesAddNoTarget` | internal/controller/egresspolicy_helpers.go:65-98 | the provisioned targets are exactly the discovered ones |
| `Confinement.AutodiscoveredIsPermitted` | internal/controller/singboxnode_controller.go:214-279 | a discovered target is permitted by region and both whitelists |
| `Confinement.TrafficIsConfined` | internal/controller/egresspolicy_helpers.go:65-98 | whatever the policies and the destination, provisioned traffic is rejected or leaves by a permitted target |
| `Confinement.BuildStatsUsers` | internal/configengine/engine.go:959-1031 | the sorted, distinct user list of the stats section |
| `Confinement.StatsCoverProvisioned` | internal/configengine/engine.go:959-1031 | every provisioned virtual user is counted, although policy targets are not walked there |
| `Dependency.InboundsAffectedByExternalOutbound` | internal/controller/singboxnode_controller.go:811-855 | the enqueued names are exactly the affected inbound nodes, each once |
| `Dependency.AnyPolicySelects` | internal/controller/singboxnode_controller.go:831-849 | whether some policy that concerns the node selects the external |
| `Dependency.InputUnaffected` | internal/controller/singboxnode_controller.go:195-393 | adding an external leaves the collected input of an unaffected inbound node equal |
| `Dependency.SelectingIsNotAdmitted` | internal/controller/singboxnode_controller.go:346-380 | while an external of another region exists, no policy that selects it is admitted |
| `Dependency.InputChangesIffReinstated` | internal/controller/singboxnode_controller.go:346-380 | an external of another region changes the collected input if and only if some policy admitted without it selects it |
| `Dependency.OutboundOnlyUnaffected` | internal/configengine/engine.go:139-226 | adding an external never changes the config of a node without the inbound role |
| `Dependency.DependencyComplete` | internal/controller/singboxnode_controller.go:811-855 | if the presence of an external changes a node's config, the mapper enqueues that node while the external exists |
| `Dependency.AfterDeletionOnlyRegion` | internal/controller/singboxnode_controller.go:811-855 | once the external is gone, the mapper enqueues exactly the inbound nodes of its region |
| `Dependency.MissedAfterDeletion` | internal/controller/singboxnode_controller.go:811-855 | the inbound nodes whose input a deletion changes and the mapper then misses are exactly those of another region with a policy the external had made ambiguous |
| `Endpoints.AtoiInverts` | internal/apiserver/client_config.go:155-171 | reading back a printed 64-bit integer gives that integer |
| `Endpoints.PrintEndpoints` | internal/controller/singboxnode_controller.go:617-621 | one protocol:address:port text for each protocol, in order |
| `Endpoints.EndpointRoundTrip` | internal/apiserver/client_config.go:155-171 | parsing the printed endpoints gives the address and the port findProtocolPort gives, and nothing when the protocol is not served or the address contains a colon |
| `Client.AddNodeRefs` | internal/apiserver/client_config.go:207-221 | in any iteration order, a reference for exactly the names reachable as a node |
| `Client.AddExternalRefs` | internal/apiserver/client_config.go:228-243 | in any iteration order, the externals not shadowed by a node complete the reachable names |
| `Client.SortedRefs` | internal/apiserver/client_config.go:267-270 | sorting any such collection gives the one ascending reference list |
| `Client.ResolveOutboundNodes` | internal/apiserver/client_config.go:194-271 | whatever the iteration order of the two maps, the same strictly ascending list of exactly the reachable targets, nodes shadowing externals |
| `Client.ResolveClientPolicyEgress` | internal/apiserver/client_policy.go:69-82 | the number of matching targets, and the target when there is one |
| `Client.BuildClientPolicies` | internal/apiserver/client_policy.go:14-66 | rules, targets and the first error in run order equal the reference plan |
| `Client.AddToGroups` | internal/apiserver/client_config.go:95-108 | the tag joins exactly the kept groups, and is added if and only if one is kept |
| `Client.AddInbound` | internal/apiserver/client_config.go:69-110 | one inbound node adds exactly its shown paths, to proxies and groups alike |
| `Client.BuildSelectors` | internal/apiserver/client_config.go:115-135 | one selector for each nonempty group, groups and members ascending |
| `Client.BuildClientConfig` | internal/apiserver/client_config.go:49-144 | the nested loops equal the reference list of proxies, selectors and direct, or the plan's error |
| `Advertised.PolicyOnlyEgresses` | internal/apiserver/policy.go:5-29 | the names that are the unique target of some valid route policy |
| `Advertised.ClientResolvesGlobally` | internal/apiserver/client_policy.go:69-82 | on a handler-built input the client counts the targets the controllers count and finds the same one |
| `Advertised.HandlerFacts` | internal/apiserver/handler.go:79-168 | what the handler assembles from a cluster, by role and by name |
| `Advertised.ActiveTargetIsPolicyOnly` | internal/apiserver/policy.go:5-29 | the target of an active policy is isolated |
| `Advertised.PathFacts` | internal/apiserver/client_config.go:69-110 | which paths are advertised: a usable entry, a reachable target, a kept group |
| `Advertised.PathTagInjective` | internal/apiserver/client_config.go:88-93 | a path tag determines inbound and target |
| `Advertised.PolicyTargetIsolation` | internal/apiserver/client_config.go:54-68 | no active policy's target is in hk, jp or us, and one without the ai group is nowhere |
| `Advertised.SelectorClosure` | internal/apiserver/client_config.go:115-135 | a tag is emitted as a proxy if and only if some selector lists it |
| `Advertised.NoEmptySelector` | internal/apiserver/client_config.go:115-135 | every emitted selector is a known group, nonempty and strictly ascending |
| `ClientTags.ProxyTagsDistinct` | internal/apiserver/client_config.go:69-110 | no two emitted proxies share a tag |
| `ClientTags.PathsAreOffers` | internal/apiserver/client_config.go:69-110 | a path is advertised exactly where a node of the input can be entered, reaches the target, and the target is in a kept group |
| `ClientTags.ClientTagsUnique` | internal/apiserver/client_config.go:49-144 | all tags are distinct if and only if no inbound node that can be entered offers itself under the name direct, or under hk, jp, us or ai while that group is filled |
| `Inactive.PlanSkipsInactive` | internal/apiserver/client_policy.go:14-66 | the plan is that of the acting policies alone |
| `Inactive.InactiveIsNoOp` | internal/apiserver/client_policy.go:14-66 | deleting a valid route policy without target changes neither plan, config nor error |
| `Inactive.InactiveIsNoOpInCluster` | internal/apiserver/handler.go:79-168 | the same for what the handler assembles from a cluster |
| `Inactive.InactiveIsNoOpForMerge` | internal/apiserver/template.go:187-198 | the same for the merged document and its errors |
| `Agreement.ReachableIsServed` | internal/apiserver/client_config.go:194-271 | a target offered through an inbound node is a target there and has an emitted outbound |
| `Agreement.ProvisionedIsAccepted` | internal/configengine/engine.go:493-581 | a provisioned u#n has an entry in the node's listener |
| `Agreement.ProvisionedIsSent` | internal/configengine/engine.go:583-598 | a provisioned u#n has a generic rule to outbound-n |
| `Agreement.AuthAgrees` | internal/configengine/engine.go:358-377 | the listener entry is the client's credential, filed under the virtual user except for naive |
| `Agreement.ClientServerAgreement` | internal/apiserver/client_config.go:69-110 | each advertised path is served: same address and port, same derived credential, a rule for u#n and an emitted outbound-n |
| `Agreement.EveryProxyIsServed` | internal/apiserver/client_config.go:277-304 | read from the emitted client config alone: each of its proxies is served by the config of some inbound node |
| `Agreement.AdvertisedPathDecision` | internal/configengine/engine.go:379-426 | traffic entering by an advertised path meets the reference policy decision |
| `Agreement.PeerExitDialsRelay` | internal/configengine/engine.go:668-707 | every outbound tagged for a peer dials that peer's relay port with its credential |
| `Agreement.RelayHopAgrees` | internal/configengine/engine.go:657-666 | the peer's own config listens on that port for that credential |
| `Witnesses.SomethingIsAdvertised` | internal/apiserver/client_config.go:49-144 | a one-node cluster that meets every hypothesis of the agreement theorems and whose client config has a proxy |
| `Witnesses.SelfRuleDangles` | internal/configengine/engine.go:540-543 | a one-node cluster whose config has a rule to an outbound it does not emit |
| `Witnesses.NodeNamedHkCollides` | internal/apiserver/client_config.go:88-93 | a node named hk whose client config has two entries under one tag |
| `Witnesses.SelfResolvingTemplateStaysCyclic` | internal/apiserver/template.go:305-371 | a template whose proxy-dns resolves itself, cyclic after merging |
| `Witnesses.HostnameProxyDnsStaysCyclic` | internal/apiserver/template.go:343 | a template that names no resolver, cyclic because its proxy-dns is a hostname and falls back to itself |
| `Witnesses.LeaningLocalClosesACycle` | internal/apiserver/template.go:345-370 | distinct tags, a detour-free local, orderable resolvers, and a cycle the wiring closes: local resolves through proxy-dns |
| `Witnesses.BootstrapBreaksTheCycle` | internal/apiserver/template.go:345-370 | a template and outbounds that are acyclic with the bootstrap resolver and cyclic without it |
| `Witnesses.StaleEgressIsUsed` | internal/configengine/engine.go:393-396 | a cluster with an admitted policy whose recorded egress is not its target |
| `Witnesses.DeletionIsMissed` | internal/controller/singboxnode_controller.go:811-855 | a cluster where deleting an external changes the config of a node the mapper does not enqueue |
| `Witnesses.ParsersDisagree` | internal/usagecollector/discovery.go:246-274 | a name with two # from which the parsers read different users and nodes |
| `Template.FindPrefix` | internal/apiserver/template.go:208-215 | the length of the leading sniff and hijack-dns rules |
| `Template.ModeRules` | internal/apiserver/template.go:230-244 | the mode rules of the available regions, preceded by Auto, and the selector Auto uses |
| `Template.MergeRules` | internal/apiserver/template.go:208-265 | the merged rule list in its five parts |
| `Template.ConfigureServers` | internal/apiserver/template.go:305-343 | the rewired servers and mode rules, or the first tag conflict |
| `Template.BootstrapOutbounds` | internal/apiserver/template.go:345-370 | hostname endpoints get a local resolver on a fresh copy, the rest are passed on as the same objects, and the caller's objects keep their contents |
| `Template.NormalizeDeprecated` | internal/apiserver/template.go:106-133 | the loop equals the reference normalization |
| `Template.CheckRuleSets` | internal/apiserver/template.go:187-198 | the first undefined rule set of an acting policy |
| `Template.ConfigureClientDns` | internal/apiserver/template.go:305-371 | the wired document or error, and nothing for templates without proxy-dns |
| `Template.MergeClientConfig` | internal/apiserver/template.go:156-289 | the merged document or error of the reference function, with the caller's outbounds unchanged |
| `Rearrangement.RuleLands` | internal/apiserver/template.go:208-265 | each surviving template rule is found at its position, unchanged or with proxy rewritten to direct |
| `Rearrangement.PositionsStable` | internal/apiserver/template.go:245-264 | distinct rules land apart, and order is kept except that domestic rules pass ordinary ones |
| `Rearrangement.MergedLength` | internal/apiserver/template.go:208-265 | survivors, inserted rules and mode rules are all there is |
| `Rearrangement.NoDanglingProxy` | internal/apiserver/template.go:245-265 | after the prefix and the policy rules no rule names the removed proxy selector |
| `Rearrangement.ModesCorrespond` | internal/apiserver/template.go:230-244 | in a merged document an available region adds exactly one route mode rule and, with managed DNS, exactly one DNS mode rule, an unavailable one adds neither; a template without proxy-dns keeps its DNS section |
| `Rearrangement.ModesAgree` | internal/apiserver/template.go:280-282 | in a merged document route and DNS mode of a region lead to one selector, and Auto's outbound, proxy-dns's detour and route.final coincide |
| `Rearrangement.NormalizedOnce` | internal/apiserver/template.go:106-133 | normalizing a second time changes nothing |
| `DnsGraph.NoBootstrapLoop` | internal/apiserver/template.go:343-370 | in an acyclic document no chain of detour, membership and resolver edges, the route's default resolver included, returns to its start |
| `DnsGraph.DnsBootstrapSafety` | internal/apiserver/template.go:305-371 | the merged graph is acyclic if and only if the template's resolver references can be ordered (a hostname without resolver reading as proxy-dns) and no server that local depends on dials through a proxy local has to look up |
| `DnsGraph.PlainLocalSafety` | internal/apiserver/template.go:345-370 | when local neither dials through anything nor needs a resolver, the template's own resolver references decide |
| `DnsGraph.BootstrapIsNeeded` | internal/apiserver/template.go:345-370 | without the local bootstrap resolver, a hostname proxy behind the Auto selector always closes a cycle |
| `DnsGraph.ServerLeadsTo` | internal/apiserver/template.go:317-343 | exactly which outbounds and resolvers each merged DNS server depends on, from the template and the available regions |
| `DnsGraph.OutboundLeadsTo` | internal/apiserver/template.go:345-370 | exactly what each merged outbound depends on: its members, and local when it is a hostname |
| `DnsGraph.PlainTemplatesAreSafe` | internal/apiserver/template.go:305-371 | templates whose servers name neither resolver nor hostname are safe once local dials directly |
| `DnsGraph.MergedTagsDistinct` | internal/apiserver/template.go:317-343 | distinct template server tags stay distinct |
| `DnsGraph.RenderedIsGenerated` | internal/apiserver/client_config.go:125-135 | a client config with unique tags meets what the graph theorems ask of outbounds |
| `DnsGraph.DocumentWiring` | internal/apiserver/template.go:305-371 | the servers, outbounds and default resolver of a merged document are the planned ones |
| `DnsGraph.MergedDocumentSafety` | internal/apiserver/template.go:156-289 | both, read off the servers, outbounds and default resolver of the document a merge returns |
| `PodRoll.DesiredInjective` | internal/controller/singboxnode_controller.go:429-432 | the annotation determines the hash |
| `PodRoll.PodSlot.ReconcilePod` | internal/controller/singboxnode_controller.go:426-531 | one uninterrupted pass: the new slot, the requeue flag, and a matching annotation when not requeued |
| `PodRoll.StepKeepsInv` | internal/controller/singboxnode_controller.go:426-531 | each step of passes, hash changes and terminations keeps the invariant |
| `PodRoll.RunKeepsInv` | internal/controller/singboxnode_controller.go:152-174 | so does every run |
| `PodRoll.CreatesOnlyWhenNone` | internal/controller/singboxnode_controller.go:426-531 | over every interleaving a pod is created only in an empty slot |
| `PodRoll.StatusMatchesPod` | internal/controller/singboxnode_controller.go:152-174 | a pass reaching updateStatus leaves a live matching pod if and only if the pod it saw was live |
| `PodRoll.FlippedHashReportsTerminatingPod` | internal/controller/singboxnode_controller.go:476-495 | a run that reaches updateStatus with no pod left |
| `PodRoll.StepMovesCloser` | internal/controller/singboxnode_controller.go:426-531 | with a fixed hash a live deletion, a completed termination and a creation each come one closer to a matching pod, and no other step changes the distance |
| `PodRoll.AtMostOneLiveDeletion` | internal/controller/singboxnode_controller.go:426-531 | with a fixed hash at most one live pod is deleted, and none that matches |
| `PodRoll.PassIsAtomicPass` | internal/controller/singboxnode_controller.go:152-174 | an undisturbed pass of the step machine has the effect of ReconcilePod |
| `PodRoll.AlwaysACloserMove` | internal/controller/singboxnode_controller.go:426-531 | until settled, a termination or one pass decreases the distance |
| `PodRoll.Converges` | internal/controller/singboxnode_controller.go:426-531 | in every fixed-hash run the distance left plus the moves made is the distance at the start, so the slot is settled exactly when that many moves were made, and stays so |
| `PodRoll.SettlingIsAlwaysPossible` | internal/controller/singboxnode_controller.go:152-174 | from every state some fixed-hash continuation settles the slot |
| `PodRoll.MisreportsOnlyReturningHash` | internal/controller/singboxnode_controller.go:476-495 | while the hash stays the same, a pass can update status without the live matching pod if and only if the slot started with the matching pod already terminating |
| `Counters.CounterRoundTrip` | internal/usagecollector/v2rayclient.go:79-115 | both parsers recover the user, node and direction a counter was printed from |
| `Counters.NormalizeImpliesParse` | internal/usagecollector/discovery.go:246-274 | success of normalizeCounterName implies success of the other with the same direction, and equal results if and only if there is one # |
| `Counters.ParseNotNormalize` | internal/usagecollector/discovery.go:246-274 | exactly which names only ParseUserCounterName accepts |
| `Usage.MergeEntry` | internal/usagecollector/collector.go:116-133 | the record under the key is created or credited in place, and no other record changes |
| `Usage.MergeEntries` | internal/usagecollector/collector.go:104-134 | one response is merged in order, skipping unrecognised and zero counters |
| `Usage.CollectRecords` | internal/usagecollector/collector.go:90-135 | the records of a cycle, responses that failed being skipped |
| `Usage.BuildBatch` | internal/usagecollector/collector.go:136-139 | each record once, in whatever order the map is walked |
| `Usage.MergeAllSums` | internal/usagecollector/collector.go:104-134 | a record exists for exactly the keys that occur, holding the 64-bit sums of each direction |
| `Usage.KeyInjective` | internal/usagecollector/collector.go:116 | a key determines inbound, user and node |
| `Usage.OneRecordPerFlow` | internal/usagecollector/collector.go:90-139 | exactly one record for each (inbound, user, node) with a nonzero recognised counter, holding its exact sums, and none besides |
| `Usage.BatchConservesBytes` | internal/usagecollector/collector.go:136-139 | a batch carries the bytes of the counters merged into it |
| `Usage.RecognisedBytesAreMerged` | internal/usagecollector/v2rayclient.go:59-76 | of a response exactly the bytes under recognised names are merged |
| `Usage.ObtainedSplits` | internal/usagecollector/v2rayclient.go:59-76 | the bytes of the responses of a cycle are those merged plus those under unrecognised names |
| `Usage.RecognisedRunLosesNothing` | internal/usagecollector/v2rayclient.go:79-115 | the unrecognised bytes of a run are zero when every counter name parses |
| `Usage.CycleConserves` | internal/usagecollector/collector.go:64-156 | the bytes of the responses a cycle obtained are what the written and failed batches grow by plus the bytes under unrecognised names |
| `Usage.Collector.PollCycle` | internal/usagecollector/collector.go:64-156 | the one batch of a cycle, holding the merged records, is written or lost; nothing happens when a cycle is under way or nothing was merged |
| `Usage.Collector.Run` | internal/usagecollector/collector.go:45-62 | over every run, the bytes of the responses obtained equal the bytes written, plus those in batches whose write failed, plus those under unrecognised names |
| `Deciding.LeastPolicyDecides` | internal/configengine/engine.go:292-307 | for every provisioned u#n and every destination, the deciding policy of least (priority, name) gives the decision, and outbound-n without one; the order is read lexicographically off the names |
| `Deciding.DecidesIff` | internal/configengine/engine.go:393-456 | which policies decide, off the input's maps: the recorded or only picked target, outbound with a relay port or with every secret its protocol requires |
| `Governing.CollectedIffGoverns` | internal/controller/singboxnode_controller.go:342-380 | a policy is collected for a node if and only if its ingress picks it, it is sound, and it rejects or has a sole target that is the node's own or passes region and both whitelists |
| `Governing.TargetsAreReached` | internal/configengine/engine.go:499-551 | the targets of a collected input are exactly the relaying peers, the dual-role node itself and the furnished externals in reach |
| `Governing.ProvisionedIffGranted` | internal/configengine/engine.go:553-581 | a user is provisioned for a target if and only if the node reaches it and the user's group grants it |
| `Governing.ClusterDecides` | internal/configengine/engine.go:379-426 | the decision of a node's config stated on the cluster alone: among the policies that govern the node and hit or guard, the least in (priority, name) rejects or sends to its sole target |
| `Governing.RejectsWhatItHits` | internal/controller/singboxnode_controller.go:356-359 | a governing reject policy rejects every destination it hits unless a deciding policy precedes it |
| `Governing.ListenerLetsInGranted` | internal/configengine/engine.go:553-581 | the entries of the client listener are exactly those of the granted (user, target) pairs |
| `Serving.CollectedInOrder` | internal/controller/singboxnode_controller.go:214-340 | users, peers and externals reach the compiler in ascending order of name |
| `Serving.UsedIff` | internal/configengine/engine.go:771-850 | which discovered externals are used: the first of a name no known node has, with complete secrets |
| `Serving.RelayedIsUntouched` | internal/configengine/engine.go:194-199 | no rule touches relayed traffic; it leaves by final, which is direct if and only if the node has a rule or no other outbound |
| `Serving.ExitNodeSendsDirect` | internal/configengine/engine.go:139-226 | a node that is only an exit sends every request out directly |
| `Serving.IdleRelayForwards` | internal/configengine/engine.go:1033-1045 | where that fails: without users and policies a relaying node with a peer forwards relayed traffic to an outbound |
| `Serving.StatsAreExact` | internal/configengine/engine.go:959-1031 | an inbound node counts exactly u#n for every user and every target it reaches, in order |
| `Serving.FallbackLetsAllIn` | internal/configengine/engine.go:603-619 | the fallback listener has one entry under its own name for every user |
| `Serving.ListensIff` | internal/configengine/engine.go:155-171 | when a node listens for clients at all |
| `Serving.RelayPortOf` | internal/configengine/engine.go:27-32 | exactly the outbound nodes listen for relays, on their port or 10808 |
| `Closure.DedupKeepsFirst` | internal/configengine/engine.go:941-957 | an outbound stays if and only if it is the first under its tag |
| `Closure.FinalTag` | internal/configengine/engine.go:194-199 | direct as soon as there is a rule, else the first outbound that is not direct |
| `Agreement.DerivedSecrets` | internal/configengine/engine.go:358-377 | which of uuid, username and password each protocol derives, and from what |
| `Agreement.SecretsDetermineOwner` | internal/configengine/engine.go:358-377 | equal secrets of two listener entries mean the same uuid and target |
| `Agreement.ExternalExitDialsExternal` | internal/configengine/engine.go:851-857 | the outbound under an external's tag is that external with the secrets stored for it |
| `Dependency.AffectedWhilePresent` | internal/controller/singboxnode_controller.go:811-855 | while an external exists the mapper enqueues exactly the inbound nodes of its region or with a route policy whose two selectors pick node and external |
| `ClientDeciding.LeastPolicyActs` | internal/apiserver/client_policy.go:14-66 | for every destination the planned rules give the decision of the least acting policy: ai if its one target lists that group, else reject; no hit when none acts |
| `ClientDeciding.PlanIffFine` | internal/apiserver/client_policy.go:30-57 | there is a plan if and only if every policy is well-formed and no route policy matches several targets |
| `ClientDeciding.PlanErrorIsFirst` | internal/apiserver/client_policy.go:24-57 | a failing plan blames the least faulty policy for the first thing wrong with it |
| `ClientDeciding.ConfinedAreIsolated` | internal/apiserver/client_config.go:49-66 | the client config is the one in which exactly the marked targets and the policies' targets outside ai are withheld from regional groups |
| `Offering.AdvertisedIffOffered` | internal/apiserver/client_config.go:194-271 | a selector lists a way if and only if the cluster offers it in that group (enterable node, reached, granted, online target), and a proxy exists if and only if some group does |
| `Offering.ProvisionedIsOffered` | internal/apiserver/client_config.go:194-271 | the converse of serving every proxy: a provisioned online target in a listed group is advertised |
| `ClientDocument.RenderedReadsBack` | internal/apiserver/client_policy.go:84-102 | a rendered rule reads back as the rule it came from |
| `ClientDocument.DocumentCarriesPlan` | internal/apiserver/template.go:208-218 | after the preprocessing prefix the merged document reads back exactly the planned rules, in order |
| `ClientDocument.DocumentDecides` | internal/apiserver/template.go:208-218 | so the policy part of the document decides as the least acting policy does |
| `MergedDocument.RulesInParts` | internal/apiserver/template.go:208-266 | the whole rule list of a merged document: prefix, policy rules, resolve, home rules, modes, the rest with dead modes dropped and proxy redirected, each in template order |
| `MergedDocument.RouteFrame` | internal/apiserver/template.go:266-284 | the rest of the route section: migrated rule sets, final and default resolver |
| `MergedDocument.DnsFrame` | internal/apiserver/template.go:305-343 | the DNS section besides servers and rules |
| `MergedDocument.RestFrame` | internal/apiserver/template.go:266-289 | Auto as default mode, generated outbounds, and everything else as in the template |
| `MergedDns.DnsIsManaged` | internal/apiserver/template.go:305-343 | the servers and rules of managed DNS: proxy-dns rewired in place, a clone for each region with outbounds, a local server if and only if one is wanted and missing; template rules before mode rules |
| `MergedDns.OutboundsResolve` | internal/apiserver/template.go:345-371 | exactly the outbounds given by hostname without resolver get the local one |
| `MergedDns.MergeAnswers` | internal/apiserver/template.go:156-200 | a merge succeeds if and only if none of seven obstacles, read off template and policies, stands; otherwise it reports the first |
| `DnsGraph.RenderedAddress` | internal/apiserver/client_config.go:277-293 | a rendered proxy carries its address and exactly its secrets |
| `DnsGraph.RenderedTls` | internal/apiserver/client_config.go:294-302 | TLS only where the proxy uses it: by name if known, unverified otherwise |
| `Counters.ParseIff` | internal/usagecollector/v2rayclient.go:79-115 | exactly which names are recognised, and as which user, node and direction |
| `PodRoll.DesiredReads` | internal/controller/singboxnode_controller.go:429-432 | the annotation is the hash and the pod template version |
| `Usage.FlowsAreReported` | internal/usagecollector/collector.go:104-111 | what a cycle merges is exactly the nonzero recognised counters of the responses obtained |

## Left out

- Kubernetes API calls, watches, queues, owner references, logging and metrics: the API is a cluster snapshot, or one pod slot.
- HTTP, gRPC, Elasticsearch and JSON encoding; the request handler is a function from a cluster to the client input.
- Hashes, random credentials and UUID formatting: derived credentials are symbolic terms of the uuid and the target.
- Label selectors, regular expressions, CIDR and address parsing, certificates: predicates that the inputs carry.
- The retired CustomRoute paths, which live inputs never populate.
- The fields of each external protocol in its outbound entry, which would only add easy members.
- Webhooks, command line, generated code, node ports, services, and discovery of collector targets.
- The nested Go maps of a template are values; only the generated outbounds, which must not be changed, are objects. Aliasing between a template's own maps is not captured.
- Nil policies, and generated outbounds that are not objects.
- Evictions and deletions of a pod by other actors; only the controller deletes in `PodRoll`.
- Two collector cycles at once: `Usage.Collector` models the guard as a flag, not the lock.
- Run: the ticker and its cancellation are the finite list of cycles the method is given.
- MissedAfterDeletion: the exact condition is on the collected input; a policy made ambiguous whose target is unusable changes the input and leaves the config equal.
