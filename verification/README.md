# A model of the T-Cloud cluster network controller

The controller keeps one VPC, one subnet and one security group per cluster: it creates them,
takes over those of a machine, or observes existing ones, and it cleans up what it manages. It
works in reconcile passes. Any call of a pass may fail, with or without having taken effect, and
what a pass learned survives only in the status it managed to patch. This project models that
state machine and proves what it keeps over every run.

## How it is built

| files | content |
|---|---|
| `Names`, `Sorting`, `Rules`, `Adoption` | managed names, the rule diff, the choice of the machine to adopt from |
| `Faults`, `State` | where a pass can be cut; the persisted object, the cloud and their surroundings |
| `Reconcile` | one pass as a function of the state and of one fault: the specification of a pass |
| `Service`, `Controller` | the cloud service and the reconciler as classes, call by call, proved to do what `Reconcile` says |
| `Protocol` | the single effects a pass can have, and what everyone else may do in between |
| `Invariants`, `Runs`, `Provenance` | what every run of effects keeps |
| `Refinement` | every pass, cut anywhere, is a run of legal effects |
| `Lifecycle` | the same theorems for lives made of whole passes, and the gates of a pass |
| `Progress` | what passes achieve when no call fails |
| `RuleProofs`, `Access` | the rule diff as one equation; SSH access over histories of edits |
| `Conservation` | what a whole Managed life does to the cloud: nothing but its own resources, and nothing at all once released |
| `Isolation` | many objects interleaved in one cloud |
| `Serving`, `Grounding` | what Ready and the records say about the cloud |
| `Reports` | what a pass tells and how it ends |
| `Recovery` | resources whose create response or record was lost |
| `Bootstrap` | propagation of the status into machine configs and annotations, next to the main controller |
| `Limits` | for each hypothesis, what the code does without it |

A pass is cut by the first call that fails, so it is determined by the state and one `Fault`: the
call, whether it took effect, and whether the failure report reached the API server. A statement
about `Pass(w, f)` for all `f` is therefore a statement about every point inside a pass. Runs of
`Protocol` are finer still: the cloud and the surroundings may change between any two effects of a
pass. Spec edits and delete requests fall between passes, because a pass goes on with the copy of
the object that it read.

The pass works on a copy of the object. `Controller.Merge` models the merge patch: only fields
that changed in the copy reach the stored object, so a change whose patch was lost is forgotten.

## Assumptions

- One worker reconciles an object at a time (leader election, `cmd/main.go:50-51`).
- The cloud issues fresh, non-empty identifiers, and a read by identifier answers about that
  resource (`Cloud.Valid`, `Protocol.Rely`). A group has a name, and a new group has no rules.
- Lookup by name is exact. Nobody else creates, renames or moves a resource into a name that
  ends in the object's short token (`Protocol.Rely`). Everything else may happen to the cloud.
- The cloud reports CIDRs as they were given, and the group's name on rules that refer to it.
- SSH CIDRs are distinct (`api/v1alpha1/tcloudclusternetwork_types.go:68-72`); only
  `CreatedOnce` needs it.
- A hybrid spec (Observe with a Managed group) names no group ID, names the group and lists at least
  one CIDR; the API server admits no other (`api/v1alpha1/tcloudclusternetwork_types.go:84`).
- An identifier is a natural number, 0 being the empty string.

Where a guarantee needs a hypothesis on edits or on what was recorded, the hypothesis is in the
lemma, and the exact condition and the failing family are proved beside it.

- Cleanup gives the cloud back if and only if everything the object had added was on record when
  deletion was requested (`CloudIsGivenBack`, `UnrecordedCreateIsLeft`).
- A switch from Managed to Observe forgets managed resources (`OnlyOverwritesForget`,
  `SwitchToObserveOrphans`).
- The controller deletes only VPCs and subnets that it created or adopted, under all edits. For
  security groups this holds at every time of a run if and only if no observation seized an
  unclaimed group (`GroupsAreClaimedUnlessSeized`); it is enough that no pass starts with a hybrid
  spec and an unmanaged group on record (`PassDeletesClaimedUnlessExposed`), and from every such
  state whose resources exist a pass and a deletion delete that group (`ExposedGroupIsDeleted`,
  `ObservedGroupIsDeleted`).
- A CIDR that no edit asks for survives if and only if it is admitted and not recorded as applied
  (`UnwantedCIDRRemains`), and one lost patch leads there from every Ready Managed network
  (`DroppedCIDRStaysOpen`).

## Model

| member | source | states |
|---|---|---|
| `Names.ManagedNameShape` | internal/controller/tcloudclusternetwork_controller.go:537-554 | for every base name the managed name ends in its token after a single dash, and is a label of at most 63 characters when the token is non-empty and alphanumeric |
| `Names.ManagedNameKeepsBase` | internal/controller/tcloudclusternetwork_controller.go:537-554 | a base name that is a label in lower case and fits is kept whole |
| `Names.ManagedNameCutsBase` | internal/controller/tcloudclusternetwork_controller.go:550-552 | a longer one is cut to fill exactly 63 characters |
| `Names.ManagedNameReplacesBase` | internal/controller/tcloudclusternetwork_controller.go:545-548 | a base name without a letter or digit becomes tcloud-network |
| `Names.ShortTokenIs` | internal/controller/tcloudclusternetwork_controller.go:556-562 | the short token is the first eight characters of the token that are not dashes, character by character, or all of them if fewer |
| `Names.ShortTokenOfUID` | internal/controller/tcloudclusternetwork_controller.go:556-562 | of a UID it is the first eight characters |
| `Names.OwnNamesSeparate` | internal/controller/tcloudclusternetwork_controller.go:550-562 | a name ends in at most one dash-free token, of whatever length |
| `Names.ManagedNamesNeverCollide` | internal/controller/tcloudclusternetwork_controller.go:537-562 | objects whose short tokens differ never share a managed name, for any base names |
| `Names.NamesOfUIDsNeverCollide` | internal/controller/tcloudclusternetwork_controller.go:537-562 | objects whose UIDs differ in their first eight characters never share a managed name |
| `Invariants.ResourcesAreCalled` | internal/controller/tcloudclusternetwork_controller.go:173-209 | the three names are the spec's, or the cluster's with its suffix, then the first eight characters of the UID |
| `Names.NetworkObjectName` | internal/controller/cluster_network_bootstrap_controller.go:352-373 | the scan computes the squeezed and cut name; its empty-name fallback is never used |
| `Names.ObjectName` | internal/controller/cluster_network_bootstrap_controller.go:352-373 | for every cluster name a label of at most 63 characters with no edge or doubled dash |
| `Names.ObjectNameOfNormalised` | internal/controller/cluster_network_bootstrap_controller.go:352-373 | a normalised name of at most 55 characters is kept whole and gets "-network" |
| `Names.ObjectNameIsCut` | internal/controller/cluster_network_bootstrap_controller.go:369-371 | a longer one is cut after 63 characters and loses at most the dash at the cut |
| `Names.SameObjectForOtherCharacters` | internal/controller/cluster_network_bootstrap_controller.go:352-366 | every character but a letter or digit counts as a dash |
| `Names.ObjectNamesInjective` | internal/controller/cluster_network_bootstrap_controller.go:352-373 | distinct normalised names of at most 55 characters get distinct objects |
| `Adoption.ChoiceIsOldest` | internal/controller/adoption.go:56-84 | the choice is the state of the least machine by creation time and name, whichever witness is taken |
| `Adoption.OldestIsEarliest` | internal/controller/adoption.go:56-63 | the machine chosen is one before which no live machine with a state Secret was created, nor at the same time under an earlier name |
| `Adoption.AdoptionMeans` | internal/controller/adoption.go:87-103 | adoption succeeds exactly when the earliest candidate's state is a complete driver-made network, and yields its three IDs |
| `Adoption.DiscoverAdoptableResources` | internal/controller/adoption.go:39-85 | filter, sort and scan depend only on the set of machines, not on their order |
| `Rules.RKE2Rules` | internal/cloud/rules.go:5-38 | the loops build SSH rules, node rules and the CNI's rules in that order |
| `Rules.ObsoleteSSHRules` | internal/cloud/rules.go:40-57 | the sorted removal requests for exactly the previous CIDRs that are no longer desired |
| `Rules.EnsureRules` | internal/cloud/tcloud.go:174-194 | the two scans, one API call at a time and cut at any call, compute the specified rules, next ID and verdict |
| `Rules.HasRule` | internal/cloud/tcloud.go:199-206 | the scan finds a matching rule if and only if one exists |
| `RuleProofs.RulePassEquation` | internal/cloud/tcloud.go:174-194 | on success the rules are the old ones that no removal request matches, with their IDs, followed by the missing wanted ones |
| `RuleProofs.CreatedOnce` | internal/cloud/tcloud.go:174-184 | no two created rules serve the same request |
| `RuleProofs.WantedNeverObsolete` | internal/cloud/rules.go:5-57 | no existing rule matches a wanted and an obsolete rule, for every CNI and every pair of lists |
| `RuleProofs.AccessNeverDips` | internal/cloud/tcloud.go:174-194 | in a pass cut at any call a rule is gone only if it is obsolete, and then every wanted rule already exists |
| `RuleProofs.OpenAfter` | internal/cloud/tcloud.go:174-194 | the CIDRs that reach tcp/22 after a pass: bounds for every cut pass, the exact set for one that ends |
| `RuleProofs.RulesSettled` | internal/cloud/tcloud.go:174-206 | with every request met and nothing dropped a pass changes no rule and cannot fail |
| `RuleProofs.NodesReachEachOther` | internal/cloud/rules.go:11-36 | after a rule pass that ends, whatever the group held, nodes reach each other on every port of RKE2 and of the network plugin, port by port |
| `RuleProofs.NewGroupAdmitsExactly` | internal/cloud/rules.go:11-36 | in a new group on those ports and on no other |
| `Service.TCloudService.EnsureVPC` | internal/cloud/tcloud.go:89-108 | read by ID, or find by name, or create; more than one match is an error; the create may fail after its effect |
| `Service.TCloudService.EnsureSubnet` | internal/cloud/tcloud.go:110-138 | the same for subnets, inside the given VPC |
| `Service.TCloudService.FindGroup` | internal/cloud/tcloud.go:157-164 | the search loop finds none, the one, or many groups of that name |
| `Service.TCloudService.EnsureSecurityGroup` | internal/cloud/tcloud.go:140-197 | look up or create, then the rule pass over the group that was read |
| `Service.LookupOnly` | internal/controller/tcloudclusternetwork_controller.go:209-221 | the call without rules only looks up or creates |
| `Service.RulesOnly` | internal/controller/tcloudclusternetwork_controller.go:222-229 | the call with a recorded group is exactly the rule pass |
| `Service.TCloudService.AttachedPorts` | internal/cloud/tcloud.go:238-261 | the number of ports whose owner begins with "compute:"; a subnet that is gone has none |
| `Service.TCloudService.DeleteSecurityGroup` | internal/cloud/tcloud.go:263-269 | removes exactly that group, and succeeds when it was already gone |
| `Service.TCloudService.DeleteSubnet` | internal/cloud/tcloud.go:271-277 | the same for a subnet |
| `Service.TCloudService.DeleteVPC` | internal/cloud/tcloud.go:279-285 | the same for a VPC |
| `Controller.MergeReadyOnly` | internal/controller/tcloudclusternetwork_controller.go:506-535 | a failure report stores nothing but Ready, even when the copy holds changes whose patch was lost |
| `Controller.Reconciler.PatchStatus` | internal/controller/tcloudclusternetwork_controller.go:506-510 | the copy changes at once, the stored object by the difference and only if the patch took effect |
| `Controller.Reconciler.ReportFailure` | internal/controller/tcloudclusternetwork_controller.go:520-535 | lowers Ready if the report gets through, and the pass fails |
| `Reports.FailedPassIsNotReady` | internal/controller/tcloudclusternetwork_controller.go:520-535 | a failed pass leaves Ready false, whatever made it fail, unless the report was lost or the failing call is one whose errors are returned unreported |
| `Reports.FailureStopsPropagation` | internal/controller/cluster_network_bootstrap_controller.go:87-89 | after a fault-free pass that fails nothing is propagated |
| `Reports.LostNetworkIsReported` | internal/controller/tcloudclusternetwork_controller.go:176-181 | a Managed network whose recorded VPC is gone is not Ready after the next pass |
| `Reports.NothingWithoutCredentials` | internal/controller/tcloudclusternetwork_controller.go:86-89 | without usable credentials a pass neither touches the cloud nor ends well |
| `Controller.Reconciler.BindClusterOwner` | internal/controller/tcloudclusternetwork_controller.go:409-445 | does what `BindOwner` specifies under every fault |
| `Controller.Reconciler.ReconcileManaged` | internal/controller/tcloudclusternetwork_controller.go:167-247 | does what `ManagedPass` specifies under every fault |
| `Controller.Reconciler.ReconcileAdopt` | internal/controller/tcloudclusternetwork_controller.go:110-165 | does what `AdoptPass` specifies under every fault |
| `Controller.Reconciler.ReconcileObserve` | internal/controller/tcloudclusternetwork_controller.go:249-319 | does what `ObservePass` specifies under every fault |
| `Controller.Reconciler.ReconcileDelete` | internal/controller/tcloudclusternetwork_controller.go:321-390 | does what `DeletePass` specifies under every fault |
| `Controller.Reconciler.Reconcile` | internal/controller/tcloudclusternetwork_controller.go:57-108 | a whole pass leaves exactly the state, and returns exactly the exit, of `Pass`, under every fault |
| `Invariants.NamesCarryToken` | internal/controller/tcloudclusternetwork_controller.go:173-209 | all three names an object asks for carry its short token |
| `Invariants.InvStep` | internal/controller/tcloudclusternetwork_controller.go:57-390 | every effect, edit and outside change keeps the status well formed, own names unique and Ready meaningful |
| `Refinement.PassSteps` | internal/controller/tcloudclusternetwork_controller.go:57-390 | whatever call fails, what a pass leaves behind is reached by legal effects |
| `Refinement.TrailingExitUnreachable` | internal/controller/tcloudclusternetwork_controller.go:388-389 | the "NetworkDeleted" exit is never taken |
| `Runs.ManagedOrGone` | internal/controller/tcloudclusternetwork_controller.go:321-390 | with fixed policies, what was managed once is at any later time still managed or gone from the cloud |
| `Runs.NoOrphan` | internal/controller/tcloudclusternetwork_controller.go:321-331 | when the finalizer may go without Abandon, nothing ever managed exists, for every run of effects |
| `Runs.DeletionOrder` | internal/controller/tcloudclusternetwork_controller.go:360-386 | when a subnet delete is issued every group ever managed is gone; for a VPC delete every group and subnet |
| `Runs.OnlyOverwritesForget` | internal/controller/tcloudclusternetwork_controller.go:110-319 | exactly when an effect orphans a live managed resource, under any policy edits |
| `Runs.RecordsAreWriteOnce` | internal/controller/tcloudclusternetwork_controller.go:176-221 | with Managed or Adopt fixed a record never changes except by deletion |
| `Runs.EveryConfigGetsTheSameNetwork` | internal/controller/cluster_network_bootstrap_controller.go:87-101 | any two propagations of one object's life find the same three resources on record |
| `Provenance.DeletesOnlyClaimed` | internal/controller/tcloudclusternetwork_controller.go:110-390 | under any policy edits a VPC or subnet delete targets an ID claimed under an own name or by adoption, and nothing was observed before |
| `Provenance.GroupDeletesOnlyClaimed` | internal/controller/tcloudclusternetwork_controller.go:255-301 | the same for security groups while the group policy is constant |
| `Provenance.GroupsAreClaimedUnlessSeized` | internal/controller/tcloudclusternetwork_controller.go:249-302 | under any edits, at every time of a run the group that deletion would delete is claimed, if and only if no observation of the run seized an unclaimed one |
| `Provenance.GroupDeletesClaimedUnlessSeized` | internal/controller/tcloudclusternetwork_controller.go:360-368 | without such a seizure every group delete targets a claimed group |
| `Provenance.SeizedGroupIsDeletable` | internal/controller/tcloudclusternetwork_controller.go:296-368 | after such a seizure a delete of the unclaimed group is enabled as soon as the object is deleted and no machine is left |
| `Lifecycle.LifeIsRun` | internal/controller/tcloudclusternetwork_controller.go:57-390 | every life of whole passes is a run of legal moves with the same edits |
| `Lifecycle.ReleasedWithoutOrphans` | internal/controller/tcloudclusternetwork_controller.go:321-390 | when a pass removes the finalizer without Abandon, nothing ever recorded as managed exists |
| `Lifecycle.ReleaseMeans` | internal/controller/tcloudclusternetwork_controller.go:325-331 | a pass removes the finalizer only to abandon or with nothing managed, and changes nothing else |
| `Reports.ReleasesExactly` | internal/controller/tcloudclusternetwork_controller.go:321-331 | a fault-free pass over a deleted object removes the finalizer, and nothing else, exactly to abandon or with nothing managed |
| `Reports.ExpiresExactly` | internal/controller/tcloudclusternetwork_controller.go:81-84 | a fault-free pass deletes a live object exactly when it is unbound and expired |
| `Reports.SteadyBindsCluster` | internal/controller/tcloudclusternetwork_controller.go:409-445 | a pass that ends well has made the cluster an owner and recorded its UID |
| `Reports.UnfinishedIsRequeued` | internal/controller/tcloudclusternetwork_controller.go:57-390 | whatever fails, a pass asks to be called again unless the finalizer is gone or deletion has just started |
| `Reports.OnlyReadyRests` | internal/controller/tcloudclusternetwork_controller.go:231-246 | the long interval is only for an object that is Ready at its generation |
| `Lifecycle.DeleteGates` | internal/controller/tcloudclusternetwork_controller.go:333-386 | when a pass removes a resource: deleting, no machines, no ports on a managed subnet, resource on record as managed under its current name, inner resources no longer managed |
| `Lifecycle.NoInstanceLosesItsNetwork` | internal/controller/tcloudclusternetwork_controller.go:349-357 | when anything is deleted no port on the managed subnet belongs to an instance |
| `Lifecycle.DeletionWaitsExactly` | internal/controller/tcloudclusternetwork_controller.go:333-357 | a fault-free deleting pass waits exactly while a machine is left or an instance is attached to the managed subnet; other ports do not hold it up |
| `Lifecycle.LivePassOnlyAdds` | internal/controller/tcloudclusternetwork_controller.go:57-319 | a pass over an object that is not being deleted removes no resource, under any policy and fault |
| `Lifecycle.PassKeepsRecords` | internal/controller/tcloudclusternetwork_controller.go:167-247 | failures never undo recorded progress |
| `Lifecycle.ReadyIsTrustworthy` | internal/controller/tcloudclusternetwork_controller.go:231-242 | in every life, Ready at the current generation means complete status and, where rules are kept, applied CIDRs equal to the spec's |
| `Serving.ServedPass` | internal/controller/tcloudclusternetwork_controller.go:57-319 | one pass, cut at any call, observes a generation only with every wanted rule in place, and loses nothing that is in place |
| `Serving.ReadyMeansServed` | internal/controller/tcloudclusternetwork_controller.go:222-244 | in every life in which nobody else touches the recorded group, Ready at the generation means that the group exists with every wanted rule |
| `Serving.ReadyAdmitsTraffic` | internal/cloud/rules.go:5-38 | in such a life a Ready network's group admits every CIDR of the spec on tcp/22 and the nodes to each other on every port they need |
| `Grounding.RecordsAreTrue` | internal/controller/tcloudclusternetwork_controller.go:176-302 | in every life, under any edits, what a live object has on record exists in the cloud under its recorded name, as long as nobody else deletes or renames it |
| `Grounding.ObservedIsWhatTheSpecNames` | internal/controller/tcloudclusternetwork_controller.go:249-302 | an Observe pass that ends well has recorded the spec's IDs under their names in the cloud, and manages only its own group |
| `Grounding.AdoptedIsWhatTheMachineMade` | internal/controller/tcloudclusternetwork_controller.go:110-139 | an adopting pass records as managed the network of the earliest machine under its names in the cloud |
| `Lifecycle.StatusIsWellFormed` | internal/controller/tcloudclusternetwork_controller.go:325-389 | in every life managed means recorded, the token is empty or the UID, and no pass takes the trailing exit |
| `Lifecycle.PassDeletesOnlyClaimed` | internal/controller/tcloudclusternetwork_controller.go:360-386 | what a pass deletes was claimed earlier in the life |
| `Lifecycle.PassDeletesOnlyClaimedGroups` | internal/controller/tcloudclusternetwork_controller.go:360-368 | the same for groups while the group policy is kept |
| `Lifecycle.PassDeletesClaimedUnlessExposed` | internal/controller/tcloudclusternetwork_controller.go:249-368 | under any edits a group that a pass deletes was claimed, as long as no pass started with a hybrid spec and an unmanaged group on record |
| `Lifecycle.ExactlyOnce` | internal/cloud/tcloud.go:93-107 | in every life at most one VPC, subnet and group exist under any own name |
| `Recovery.PassFindsLostResource` | internal/cloud/tcloud.go:93-172 | a pass over an object with an unrecorded resource under its managed name, cut at any call, creates no second one and records none but that one; a pass that ends well has recorded it as managed |
| `Progress.NeverMany` | internal/cloud/tcloud.go:97-162 | the "multiple found" errors are unreachable for own names |
| `Progress.DeletionTakesOnePassEach` | internal/controller/tcloudclusternetwork_controller.go:321-390 | with no machine and no instance left, k managed resources take exactly k + 1 fault-free passes, one resource each |
| `Progress.DeletionCleansUp` | internal/controller/tcloudclusternetwork_controller.go:360-386 | after those passes nothing that was managed exists |
| `Progress.FailedPassKeepsProgress` | internal/controller/tcloudclusternetwork_controller.go:360-386 | a failed pass never adds work, also when it failed between the cloud delete and the patch |
| `Progress.SteadyIsFixed` | internal/controller/tcloudclusternetwork_controller.go:57-319 | after a pass that ended well another one changes nothing at all, for Managed, Adopt and Observe |
| `Progress.ReadyInAFewPasses` | internal/controller/tcloudclusternetwork_controller.go:57-247 | from every state whose records exist, as many fault-free passes as steps are missing make the network Ready at its generation, and it stays so |
| `Progress.ThreePassesOrFour` | internal/controller/tcloudclusternetwork_controller.go:57-247 | three passes do for Managed, four for Adopt |
| `Lifecycle.NewObjectBecomesReady` | internal/controller/tcloudclusternetwork_controller.go:57-247 | every new Managed object is Ready after three fault-free passes |
| `Conservation.TidyPass` | internal/controller/tcloudclusternetwork_controller.go:57-390 | one Managed pass, cut anywhere, keeps the balance: old resources intact, a new one on record or under the object's name while none is on record |
| `Conservation.NothingElseChanges` | internal/controller/tcloudclusternetwork_controller.go:167-247 | in every state of a Managed life with fixed names, whatever failed, what was there before is intact and what is new is the object's |
| `Conservation.CloudIsGivenBack` | internal/controller/tcloudclusternetwork_controller.go:167-390 | for every object whose deletion was requested: the pass that removes the finalizer leaves exactly the VPCs, subnets and groups from before the object, whatever failed, if and only if every resource it had added was on record at that request |
| `Conservation.LeftoverStays` | internal/controller/tcloudclusternetwork_controller.go:321-390 | a resource that is not on record when deletion is requested stays and is never managed again |
| `Conservation.CompleteObjectGivesBack` | internal/controller/tcloudclusternetwork_controller.go:167-390 | in particular an object that had all three resources on record at some time gives the cloud back |
| `Access.PassMoves` | internal/controller/tcloudclusternetwork_controller.go:222-244 | one pass, cut anywhere, opens only desired CIDRs and closes only dropped ones, and is exact once it records the list |
| `Access.AccessConverges` | internal/controller/tcloudclusternetwork_controller.go:222-244 | over any edits and cut passes, after each success the group admits exactly the current list and the foreign CIDRs no edit asked for |
| `Access.UnwantedCIDRRemains` | internal/cloud/rules.go:40-57 | a CIDR that no edit asks for survives if and only if it was admitted and not recorded as applied |
| `Access.NewObjectAdmitsNothing` | internal/controller/tcloudclusternetwork_controller.go:209-229 | a new object starts with no admitted CIDR and an empty applied list |
| `Isolation.EffectIsRelied` | internal/cloud/tcloud.go:93-107 | whatever one object's controller does, another object may rely on its own names |
| `Isolation.RecordsAreDisjoint` | internal/controller/tcloudclusternetwork_controller.go:537-562 | in every interleaved run of any number of Managed objects with different short tokens their records are disjoint |
| `Isolation.NobodyTouchesAnothersResources` | internal/controller/tcloudclusternetwork_controller.go:360-386 | no effect of one object changes or deletes what another has on record, rules included |
| `Isolation.PassesAreIsolated` | internal/controller/tcloudclusternetwork_controller.go:57-390 | however whole passes of any number of Managed objects interleave, each cut at any call, the next pass of one leaves what another has on record as it was, and their records stay disjoint |
| `Isolation.UIDsIsolate` | internal/controller/tcloudclusternetwork_controller.go:537-562 | the same for objects whose UIDs differ in their first eight characters |
| `Bootstrap.MachineConfigRefs` | internal/controller/cluster_network_bootstrap_controller.go:157-182 | each referenced T-Cloud config once and no other, in the order of first appearance; an error exactly when a reference is malformed |
| `Bootstrap.RefersByKind` | internal/controller/cluster_network_bootstrap_controller.go:173-177 | the references that count are those of kind OpentelekomcloudConfig, in any case, with a name |
| `Bootstrap.MachineConfigNames` | internal/controller/cluster_network_bootstrap_controller.go:108-129 | the references in order, then exactly the owned configs not among them, in the order of the listing, without duplicates |
| `Bootstrap.MergeFields` | internal/controller/cluster_network_bootstrap_controller.go:282-290 | in whatever order the fields come, exactly the desired ones are set, and "changed" tells whether anything differs |
| `Bootstrap.ConfigStore.PatchMachineConfig` | internal/controller/cluster_network_bootstrap_controller.go:270-298 | the named config gets the fields; a missing one is an error; one that has them already is not written and cannot fail |
| `Bootstrap.ConfigStore.PatchClusterNetworkAnnotations` | internal/controller/cluster_network_bootstrap_controller.go:314-343 | the six annotations are set and the others kept; equal ones are not written and cannot fail |
| `Bootstrap.JoinedListsDiffer` | internal/controller/cluster_network_bootstrap_controller.go:324-324 | two non-empty lists of comma-free CIDRs never share an annotation |
| `Bootstrap.ListSurvivesAnnotation` | internal/controller/cluster_network_bootstrap_controller.go:324-324 | splitting the annotation gives the list of CIDRs back in order |
| `Bootstrap.GroupPolicyShown` | internal/controller/cluster_network_bootstrap_controller.go:325-350 | the annotated group policy is the spec's, or Managed for Managed and Adopt networks and Observe otherwise |
| `Bootstrap.NetworkShown` | internal/controller/cluster_network_bootstrap_controller.go:332-343 | the annotations name the object, its policy, its group and the provider |
| `Bootstrap.ConfigStore.ReconcileConfigs` | internal/controller/cluster_network_bootstrap_controller.go:87-106 | nothing unless Ready at the generation with complete status, then a prefix of the configs in order; on success every config uses the recorded VPC, subnet and group, and the annotations are set |
| `Bootstrap.PatchedPoints` | internal/controller/cluster_network_bootstrap_controller.go:96-101 | each patched config points at the network and keeps its other fields |
| `Bootstrap.PointingIsUsing` | internal/controller/cluster_network_bootstrap_controller.go:275-280 | field by field: VPC ID and name, subnet ID and name, group name, shared scope and no default group |
| `Grounding.ConfigsLeadToTheNetwork` | internal/controller/cluster_network_bootstrap_controller.go:270-298 | in every life of a Managed object a config that is patched names an existing VPC, a subnet of that very VPC and the recorded group, each under its name in the cloud |
| `Bootstrap.PatchesAreMoves` | internal/controller/cluster_network_bootstrap_controller.go:96-101 | a round of patches is a run of legal moves of the whole system |
| `Bootstrap.CompletenessNeverFails` | internal/controller/cluster_network_bootstrap_controller.go:262-268 | for a live object that reports Ready the completeness check never fails |
| `Bootstrap.ConfigsStayPut` | internal/controller/cluster_network_bootstrap_controller.go:270-298 | a config that points at the network once points at the same resources ever after |
| `Limits.OnlyHybridObservationSeizes` | internal/controller/tcloudclusternetwork_controller.go:296-302 | exactly when an effect makes the object manage a group it did not claim |
| `Limits.ObservedGroupIsDeleted` | internal/controller/tcloudclusternetwork_controller.go:255-302 | for every new Observe network and every edit to a hybrid spec that the API server admits, the group it had observed is deleted, although the new spec no longer names it |
| `Limits.ExposedGroupIsDeleted` | internal/controller/tcloudclusternetwork_controller.go:255-368 | from every state with a hybrid spec and an unmanaged group on record whose resources exist, one pass and a deletion delete that group |
| `Limits.SwitchToObserveOrphans` | internal/controller/tcloudclusternetwork_controller.go:296-302 | a Managed network switched to Observe is released while the VPC it made exists |
| `Limits.UnrecordedCreateIsLeft` | internal/controller/tcloudclusternetwork_controller.go:182-187 | a VPC whose record was lost is left behind when deletion starts before another pass |
| `Limits.DroppedCIDRStaysOpen` | internal/controller/tcloudclusternetwork_controller.go:222-244 | for every Ready Managed network and every CIDR outside its list: adding it, losing the last patch and taking the edit back leaves the network Ready with the old list applied and the CIDR open |

## Left out

- Reconcile: the in-memory refresh of an object by the response of a patch, stale informer reads and conflicts between two writers.
- Credentials, authentication and the SDK: building the cloud service is one call that may fail (`Site.Credentials`).
- HTTP, pagination and error unwrapping: a read answers with the resource, not found, or an error.
- Decoding of machine state (gzip, tar, JSON): a state Secret is decoded, undecodable or unreadable.
- Conditions other than Ready, their reasons, messages and times, events and requeue intervals; patches that only set such conditions have no effect in the model.
- The clock: expiry of an unbound object is a flag of the surroundings.
- Parameters of a create that nothing reads back (CIDR, gateway, DNS servers, zone, description).
- Cloud-side refusal of a delete, such as a VPC that still holds a subnet: it is a delete that fails without effect.
- Lowercasing outside ASCII and invalid UTF-8; lengths count characters, which are bytes in a label.
- The bootstrap controller's creation of an Adopt network and its first provider annotation; the model starts where it has found the network.
- Ownership of machine configs (`ownedByCluster`): whether the cluster owns a listed config is an input.
- Watches, request mappings, manager setup, leader election itself, generated code, CRDs and charts.
