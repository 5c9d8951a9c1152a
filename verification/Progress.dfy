/**
 What passes achieve when no call fails: deletion in exactly one pass per managed resource and
 one more, readiness in at most three passes (four to adopt), and then nothing at all.
 */
module Progress {
  import opened Faults
  import opened Names
  import opened Rules
  import opened RuleProofs
  import opened Adoption
  import opened State
  import opened Protocol
  import opened Invariants
  import opened Runs
  import opened Reconcile
  import opened Refinement

  ghost function Iterate<T>(step: T -> T, x: T, n: nat): T
    decreases n
  {
    if n == 0 then x else Iterate(step, step(x), n - 1)
  }

  lemma {:induction false} IterateFixed<T>(step: T -> T, x: T, n: nat)
    requires step(x) == x
    ensures Iterate(step, x, n) == x
  {
    if n > 0 {
      IterateFixed(step, x, n - 1);
    }
  }

  ghost function FaultFree(w: World): World {
    Pass(w, NO_FAULT).w
  }

  /** `n` passes in a row without a fault and with nothing else happening. */
  ghost function Passes(w: World, n: nat): World {
    Iterate(FaultFree, w, n)
  }

  // ---------------------------------------------------------------- deletion

  function Flag(r: ResourceStatus): nat {
    if r.managed then 1 else 0
  }

  /** How many resources are still managed. */
  function ToDelete(n: Network): nat {
    Flag(n.status.vpc) + Flag(n.status.subnet) + Flag(n.status.group)
  }

  predicate NameKept(r: ResourceStatus, actual: Option<Resource>) {
    r.managed && actual.Some? ==> actual.value.name == r.name
  }

  /** Deletion can go on: nothing uses the network and its resources keep their names. */
  ghost predicate Deletable(w: World) {
    var s := w.net.status;
    && Sound(w) && w.net.deleting && w.net.finalizer && w.net.spec.policy != Abandon
    && |w.env.machines| == 0
    && (s.subnet.managed ==> NoInstances(w.cloud, s.subnet.id))
    && NameKept(s.vpc, GetVPCCall(w.cloud, s.vpc.id))
    && NameKept(s.subnet, GetSubnetCall(w.cloud, s.subnet.id))
    && NameKept(s.group, GetGroupCall(w.cloud, s.group.id))
  }

  /** The delete and the clear that come next: group, then subnet, then VPC. */
  function NextDelete(n: Network): Effect {
    if n.status.group.managed then DeleteGroup else if n.status.subnet.managed then DeleteSubnet else DeleteVPC
  }

  function NextClear(n: Network): Effect {
    if n.status.group.managed then ClearGroup else if n.status.subnet.managed then ClearSubnet else ClearVPC
  }

  lemma NextIs(w: World, f: Fault)
    requires Deletable(w) && ToDelete(w.net) > 0
    ensures ResourceDelete(w, f) == DeleteStage(w, true, NextDelete(w.net), NextClear(w.net), f)
  {
    hide DeleteStage, Perform;
  }

  /** With the gates open, a pass fails before the next delete or reaches it. */
  lemma DeletePassIs(w: World, f: Fault)
    requires Deletable(w) && ToDelete(w.net) > 0
    ensures var v := Pass(w, f).w;
            || v == w || v == Perform(w, LowerReady)
            || v == DeleteStage(w, true, NextDelete(w.net), NextClear(w.net), f).w
    ensures f == NO_FAULT ==> Pass(w, f) == DeleteStage(w, true, NextDelete(w.net), NextClear(w.net), f)
  {
    hide LivePass, Network.Names, ResourceDelete, DeleteStage, PortsOn, NoInstances;
    NoPortsNoInstances(w.cloud, w.net.status.subnet.id);
    NextIs(w, f);
  }

  lemma DeletableAfter(w: World)
    requires Deletable(w) && ToDelete(w.net) > 0
    ensures var d := Perform(w, NextDelete(w.net)); Deletable(d) && d.net == w.net
    ensures var v := Perform(Perform(w, NextDelete(w.net)), NextClear(w.net));
            Deletable(v) && ToDelete(v.net) == ToDelete(w.net) - 1
  {
    if w.net.status.group.managed { DeletableAfterGroup(w); }
    else if w.net.status.subnet.managed { DeletableAfterSubnet(w); }
  }

  lemma DeletableAfterGroup(w: World)
    requires Deletable(w) && w.net.status.group.managed
    ensures var d := Perform(w, DeleteGroup); Deletable(d) && d.net == w.net
    ensures var v := Perform(Perform(w, DeleteGroup), ClearGroup); Deletable(v) && ToDelete(v.net) == ToDelete(w.net) - 1
  {
  }

  lemma DeletableAfterSubnet(w: World)
    requires Deletable(w) && w.net.status.subnet.managed
    ensures var d := Perform(w, DeleteSubnet); Deletable(d) && d.net == w.net
    ensures var v := Perform(Perform(w, DeleteSubnet), ClearSubnet); Deletable(v) && ToDelete(v.net) == ToDelete(w.net) - 1
  {
  }

  /** The states a delete stage can leave behind, whatever call fails. */
  lemma DeleteStageOutcomes(w: World, d: Effect, c: Effect, f: Fault)
    ensures var v := DeleteStage(w, true, d, c, f).w;
            v == w || v == Perform(w, LowerReady) || v == Perform(w, d) || v == Perform(Perform(w, d), c)
    ensures f == NO_FAULT ==> DeleteStage(w, true, d, c, f).w == Perform(Perform(w, d), c)
  {
  }

  lemma DeletePassDeletesOne(w: World)
    requires Deletable(w) && ToDelete(w.net) > 0
    ensures Deletable(Pass(w, NO_FAULT).w)
    ensures ToDelete(Pass(w, NO_FAULT).w.net) == ToDelete(w.net) - 1
  {
    hide Pass, DeleteStage, Perform, Deletable;
    DeletePassIs(w, NO_FAULT);
    DeleteStageOutcomes(w, NextDelete(w.net), NextClear(w.net), NO_FAULT);
    DeletableAfter(w);
  }

  lemma LastPassReleases(w: World)
    requires Deletable(w) && ToDelete(w.net) == 0
    ensures Pass(w, NO_FAULT).w == Perform(w, Release)
  {
    hide LivePass, Network.Names, ResourceDelete;
  }

  /** k managed resources take exactly k + 1 passes to clean up and let the object go. */
  lemma {:induction false} DeletionTakesOnePassEach(w: World, n: nat)
    requires Deletable(w) && n <= ToDelete(w.net)
    ensures Deletable(Passes(w, n)) && ToDelete(Passes(w, n).net) == ToDelete(w.net) - n
    ensures !Passes(w, ToDelete(w.net) + 1).net.finalizer
    decreases ToDelete(w.net), n
  {
    hide Pass;
    if ToDelete(w.net) == 0 {
      LastPassReleases(w);
      assert Passes(w, 1) == Passes(FaultFree(w), 0);
    } else {
      DeletePassDeletesOne(w);
      DeletionTakesOnePassEach(Pass(w, NO_FAULT).w, if n == 0 then 0 else n - 1);
    }
  }

  /** With nothing managed, a pass releases the object or changes nothing. */
  lemma ReleasePassIs(w: World, f: Fault)
    requires Deletable(w) && ToDelete(w.net) == 0
    ensures var v := Pass(w, f).w; v == w || v == Perform(w, Release)
  {
    hide LivePass, Network.Names, ResourceDelete;
  }

  lemma DeletableLowered(w: World)
    requires Deletable(w)
    ensures Deletable(Perform(w, LowerReady)) && ToDelete(Perform(w, LowerReady).net) == ToDelete(w.net)
  {
  }

  /** A pass that fails anywhere never adds work, and leaves deletion able to go on. */
  lemma FailedPassKeepsProgress(w: World, f: Fault)
    requires Deletable(w)
    ensures ToDelete(Pass(w, f).w.net) <= ToDelete(w.net)
    ensures Pass(w, f).w.net.finalizer ==> Deletable(Pass(w, f).w)
  {
    hide Pass, DeleteStage, Sound, NameKept, NoInstances;
    DeletableLowered(w);
    if ToDelete(w.net) > 0 {
      DeletePassIs(w, f);
      DeleteStageOutcomes(w, NextDelete(w.net), NextClear(w.net), f);
      DeletableAfter(w);
    } else {
      ReleasePassIs(w, f);
    }
  }

  /** Each pass keeps or deletes a managed resource, and brings none back. */
  lemma DeletePassCleans(w: World, k: Kind, id: Id)
    requires Deletable(w)
    ensures var v := Pass(w, NO_FAULT).w;
            && (Manages(w.net, k, id) && ToDelete(w.net) > 0 ==> Manages(v.net, k, id) || !Exists(v.cloud, k, id))
            && (!Exists(w.cloud, k, id) ==> !Exists(v.cloud, k, id))
  {
    hide Pass, DeleteStage, Sound, NameKept, NoInstances;
    if ToDelete(w.net) > 0 {
      DeletePassIs(w, NO_FAULT);
      DeleteStageOutcomes(w, NextDelete(w.net), NextClear(w.net), NO_FAULT);
    } else {
      LastPassReleases(w);
    }
  }

  /** After those passes nothing that was managed exists. */
  lemma {:induction false} DeletionCleansUp(w: World, k: Kind, id: Id)
    requires Deletable(w)
    requires Manages(w.net, k, id) || !Exists(w.cloud, k, id)
    ensures !Exists(Passes(w, ToDelete(w.net) + 1).cloud, k, id)
    decreases ToDelete(w.net)
  {
    hide Pass;
    var v := Pass(w, NO_FAULT).w;
    DeletePassCleans(w, k, id);
    if ToDelete(w.net) > 0 {
      DeletePassDeletesOne(w);
      DeletionCleansUp(v, k, id);
    } else {
      assert Passes(w, 1) == Passes(v, 0);
    }
  }

  // ---------------------------------------------------------------- the fixed point

  /** The cluster binding needs no more work, and the object does not expire. */
  predicate Bound(w: World) {
    match w.env.cluster
    case None => !w.env.expired
    case Some(uid) => uid in w.net.owners && w.net.status.clusterUID == uid
  }

  lemma FailKeeps(w: World, f: Fault)
    ensures Fail(w, f).w == w || Fail(w, f).w == Perform(w, LowerReady)
  {
  }

  lemma OwnerKeeps(w: World, e: Effect, s: Site, f: Fault)
    requires e.AddOwner? || e.SetClusterUID?
    ensures var v := ReportedWrite(w, e, s, f).w;
            v == w.(net := w.net.(owners := v.net.owners,
                                  status := w.net.status.(clusterUID := v.net.status.clusterUID, ready := v.net.status.ready)))
  {
  }

  /** Binding the cluster touches the owners, the cluster's UID and Ready, and nothing else. */
  lemma BindKeeps(w: World, f: Fault)
    ensures var v := BindOwner(w, f).w;
            v == w.(net := w.net.(owners := v.net.owners,
                                  status := w.net.status.(clusterUID := v.net.status.clusterUID, ready := v.net.status.ready)))
  {
    hide ReportedWrite, Fail;
    if w.env.cluster.Some? {
      OwnerKeeps(w, AddOwner(w.env.cluster.value), PatchOwner, f);
      OwnerKeeps(w, SetClusterUID(w.env.cluster.value), PatchClusterUID, f);
    }
    FailKeeps(w, f);
  }

  /** Every wanted rule exists in the recorded group. */
  ghost predicate AllWanted(w: World)
    requires w.net.status.group.id in w.cloud.groups
  {
    var s, spec := w.net.status, w.net.spec;
    var wanted := Wanted(s.group.id, spec.cidrs, spec.cni);
    forall i :: 0 <= i < |wanted| ==> Has(w.cloud.groups[s.group.id].name, w.cloud.groups[s.group.id].rules, wanted[i])
  }

  /** A rule pass that ends leaves every wanted rule in place. */
  lemma RulesMet(w: World, f: Fault)
    requires w.cloud.Valid() && RuleStage(w, f).Go?
    ensures var v := RuleStage(w, f).w;
            && v.net == w.net && v.env == w.env && v.net.status.group.id in v.cloud.groups && AllWanted(v)
            && v.cloud.vpcs == w.cloud.vpcs && v.cloud.subnets == w.cloud.subnets
  {
    hide ReconcileRules, Wanted, Obsolete, Has, GoodRules;
    var s, spec := w.net.status, w.net.spec;
    var group := w.cloud.groups[s.group.id];
    EveryWantedRuleMet(group.name, group.rules, s.group.id, s.applied, spec.cidrs, spec.cni, w.cloud.next, f);
  }

  /** A second rule pass finds nothing to do. */
  lemma RulesQuiet(w: World)
    requires w.net.status.group.id in w.cloud.groups && w.net.status.applied == w.net.spec.cidrs && AllWanted(w)
    ensures RuleStage(w, NO_FAULT) == Go(w)
  {
    hide ReconcileRules, Wanted, Obsolete, Has;
    var s, spec := w.net.status, w.net.spec;
    var group := w.cloud.groups[s.group.id];
    RulesSettled(group.name, group.rules, Wanted(s.group.id, spec.cidrs, spec.cni), spec.cidrs, w.cloud.next, NO_FAULT);
    assert w.cloud.groups[s.group.id := group.(rules := group.rules)] == w.cloud.groups;
  }

  /** What no stage of a live pass changes, the token and the records aside. */
  predicate SameObject(w: World, v: World) {
    && v.env == w.env && v.net.spec == w.net.spec && v.net.generation == w.net.generation
    && v.net.uid == w.net.uid && v.net.cluster == w.net.cluster
    && v.net.owners == w.net.owners && v.net.status.clusterUID == w.net.status.clusterUID
    && v.net.deleting == w.net.deleting && v.net.finalizer == w.net.finalizer
  }

  /** Everything is recorded and exists; the rules are in place and the status says so. */
  ghost predicate Finished(w: World) {
    && w.net.AllRecorded() && w.net.status.group.id in w.cloud.groups
    && w.net.status.applied == w.net.spec.cidrs && AllWanted(w) && Perform(w, MarkReady) == w
  }

  lemma ReadyFinishes(w: World, f: Fault)
    requires w.net.AllRecorded() && w.net.status.group.id in w.cloud.groups && AllWanted(w)
    requires ReadyStage(w, f).exit.Steady?
    ensures var v := ReadyStage(w, f).w;
            && Finished(v) && SameObject(w, v) && v.cloud == w.cloud && v.net.status.token == w.net.status.token
            && v.net.status.vpc == w.net.status.vpc && v.net.status.subnet == w.net.status.subnet
  {
  }

  lemma VPCStaged(w: World, name: string, f: Fault)
    requires w.cloud.Valid() && VPCStage(w, name, f).Go?
    ensures var v := VPCStage(w, name, f).w;
            && SameObject(w, v) && v.net.status == w.net.status.(vpc := v.net.status.vpc)
            && v.net.status.vpc.id != 0 && v.net.status.vpc.id in v.cloud.vpcs && v.cloud.Valid()
  {
    hide EnsureVPCCall;
    VPCCall(w.cloud, w.net.status.vpc.id, name, f);
  }

  lemma SubnetStaged(w: World, name: string, f: Fault)
    requires w.cloud.Valid() && SubnetStage(w, name, f).Go?
    ensures var v := SubnetStage(w, name, f).w;
            && SameObject(w, v) && v.net.status == w.net.status.(subnet := v.net.status.subnet)
            && v.net.status.subnet.id != 0 && v.net.status.subnet.id in v.cloud.subnets && v.cloud.Valid()
            && v.cloud.vpcs == w.cloud.vpcs
  {
    hide EnsureSubnetCall;
    SubnetCall(w.cloud, w.net.status.subnet.id, w.net.status.vpc.id, name, f);
  }

  lemma GroupStaged(w: World, name: string, f: Fault)
    requires w.cloud.Valid() && name != "" && GroupStage(w, name, f).Go?
    ensures var v := GroupStage(w, name, f).w;
            && SameObject(w, v) && v.net.status == w.net.status.(group := v.net.status.group)
            && v.net.status.group.id != 0 && v.net.status.group.id in v.cloud.groups && v.cloud.Valid()
            && v.cloud.vpcs == w.cloud.vpcs && v.cloud.subnets == w.cloud.subnets
  {
    hide EnsureGroupCall;
    GroupCall(w.cloud, w.net.status.group.id, name, f);
  }

  lemma OwnGroupStaged(w: World, name: string, f: Fault)
    requires w.cloud.Valid() && name != "" && OwnGroupStage(w, name, f).Go?
    ensures var v := OwnGroupStage(w, name, f).w;
            && SameObject(w, v) && v.net.status == w.net.status.(group := v.net.status.group)
            && v.net.status.group.id != 0 && v.net.status.group.id in v.cloud.groups && AllWanted(v)
            && v.cloud.vpcs == w.cloud.vpcs && v.cloud.subnets == w.cloud.subnets
  {
    GroupStaged(w, name, f);
    RulesMet(GroupStage(w, name, f).w, f);
  }

  lemma ResourcesFinish(w: World, names: ResourceNames, f: Fault)
    requires w.cloud.Valid() && names.group != "" && ResourcesPass(w, names, f).exit.Steady?
    ensures var v := ResourcesPass(w, names, f).w;
            && Finished(v) && SameObject(w, v) && v.net.status.token == w.net.status.token
            && v.net.status.vpc.id in v.cloud.vpcs && v.net.status.subnet.id in v.cloud.subnets
  {
    VPCStaged(w, names.vpc, f);
    var w1 := VPCStage(w, names.vpc, f).w;
    SubnetStaged(w1, names.subnet, f);
    var w2 := SubnetStage(w1, names.subnet, f).w;
    OwnGroupStaged(w2, names.group, f);
    ReadyFinishes(OwnGroupStage(w2, names.group, f).w, f);
  }

  lemma GroupQuiet(w: World, name: string)
    requires w.net.status.group.id != 0 && w.net.status.group.id in w.cloud.groups
    requires RuleStage(w, NO_FAULT) == Go(w)
    ensures OwnGroupStage(w, name, NO_FAULT) == Go(w)
  {
    assert GroupStage(w, name, NO_FAULT) == Go(w);
  }

  lemma ResourcesQuiet(w: World, names: ResourceNames)
    requires w.net.AllRecorded() && OwnGroupStage(w, names.group, NO_FAULT) == Go(w)
    requires w.net.status.vpc.id in w.cloud.vpcs && w.net.status.subnet.id in w.cloud.subnets
    requires Perform(w, MarkReady) == w
    ensures ResourcesPass(w, names, NO_FAULT) == Stop(w, Steady)
  {
    hide OwnGroupStage, Find;
    assert VPCStage(w, names.vpc, NO_FAULT) == Go(w);
    assert SubnetStage(w, names.subnet, NO_FAULT) == Go(w);
  }

  predicate IsReady(n: Network) {
    n.status.ready && n.status.observed == n.generation
  }

  lemma MarkedIsReady(v: World)
    requires Perform(v, MarkReady) == v
    ensures IsReady(v.net)
  {
    assert IsReady(Perform(v, MarkReady).net);
  }

  lemma ManagedFixed(w: World, names: ResourceNames, f: Fault)
    requires w.cloud.Valid() && w.net.uid != "" && names.group != "" && ManagedPass(w, names, f).exit.Steady?
    ensures var v := ManagedPass(w, names, f).w; SameObject(w, v) && IsReady(v.net) && ManagedPass(v, names, NO_FAULT) == Stop(v, Steady)
  {
    ManagedFinish(w, names, f);
    FinishedQuiet(ManagedPass(w, names, f).w, names);
  }

  lemma TokenStaged(w: World, f: Fault)
    requires w.net.uid != "" && TokenStage(w, f).Go?
    ensures var v := TokenStage(w, f).w; SameObject(w, v) && v.cloud == w.cloud && v.net.status.token != ""
  {
  }

  lemma ManagedFinish(w: World, names: ResourceNames, f: Fault)
    requires w.cloud.Valid() && w.net.uid != "" && names.group != "" && ManagedPass(w, names, f).exit.Steady?
    ensures var v := ManagedPass(w, names, f).w;
            && Finished(v) && SameObject(w, v) && v.net.status.token != ""
            && v.net.status.vpc.id in v.cloud.vpcs && v.net.status.subnet.id in v.cloud.subnets
  {
    TokenStaged(w, f);
    ResourcesFinish(TokenStage(w, f).w, names, f);
  }

  lemma FinishedQuiet(v: World, names: ResourceNames)
    requires Finished(v) && v.net.status.token != ""
    requires v.net.status.vpc.id in v.cloud.vpcs && v.net.status.subnet.id in v.cloud.subnets
    ensures IsReady(v.net) && ManagedPass(v, names, NO_FAULT) == Stop(v, Steady)
  {
    MarkedIsReady(v);
    RulesQuiet(v);
    GroupQuiet(v, names.group);
    ResourcesQuiet(v, names);
  }

  lemma AdoptFixed(w: World, f: Fault)
    requires w.cloud.Valid() && AdoptPass(w, f).exit.Steady?
    ensures var v := AdoptPass(w, f).w; SameObject(w, v) && IsReady(v.net) && AdoptPass(v, NO_FAULT) == Stop(v, Steady)
  {
    hide RuleStage, AllWanted, ReadyStage, Finished;
    RulesMet(w, f);
    ReadyFinishes(RuleStage(w, f).w, f);
    AdoptedQuiet(AdoptPass(w, f).w);
  }

  lemma AdoptedQuiet(v: World)
    requires Finished(v)
    ensures IsReady(v.net) && AdoptPass(v, NO_FAULT) == Stop(v, Steady)
  {
    MarkedIsReady(v);
    RulesQuiet(v);
  }

  /** What an observation leaves when it ends. */
  lemma ObserveEnds(w: World, names: ResourceNames, f: Fault)
    requires w.cloud.Valid() && w.net.uid != "" && names.group != "" && ObservedGroupStage(w, names, f).Go?
    ensures var v := ObservedGroupStage(w, names, f).w;
            && SameObject(w, v) && v.cloud.vpcs == w.cloud.vpcs && v.cloud.subnets == w.cloud.subnets
            && (w.net.spec.GroupManaged() ==> && v.net.status.token != "" && v.net.status.group.id != 0
                                              && v.net.status.group.id in v.cloud.groups && AllWanted(v))
            && (!w.net.spec.GroupManaged() ==> v == w && w.net.spec.groupID in w.cloud.groups)
  {
    if w.net.spec.GroupManaged() {
      TokenStaged(w, f);
      OwnGroupStaged(TokenStage(w, f).w, names.group, f);
    }
  }

  lemma ObserveFixed(w: World, names: ResourceNames, f: Fault)
    requires w.cloud.Valid() && w.net.uid != "" && names.group != "" && ObservePass(w, names, f).exit.Steady?
    ensures var v := ObservePass(w, names, f).w; SameObject(w, v) && IsReady(v.net) && ObservePass(v, names, NO_FAULT) == Stop(v, Steady)
  {
    hide ObservedGroupStage, AllWanted, Finished, RuleStage;
    ObserveEnds(w, names, f);
    var v, spec := ObservedGroupStage(w, names, f).w, w.net.spec;
    var group := if spec.GroupManaged() then v.net.status.group.id else spec.groupID;
    Observed(v, names, group);
  }

  lemma Observed(v: World, names: ResourceNames, group: Id)
    requires v.net.spec.vpcID in v.cloud.vpcs && v.net.spec.subnetID in v.cloud.subnets && group in v.cloud.groups
    requires group == if v.net.spec.GroupManaged() then v.net.status.group.id else v.net.spec.groupID
    requires v.net.spec.GroupManaged() ==> v.net.status.token != "" && group != 0 && AllWanted(v)
    ensures var u := Perform(v, ObserveAll(v.net.spec.vpcID, v.net.spec.subnetID, group));
            SameObject(v, u) && IsReady(u.net) && ObservePass(u, names, NO_FAULT) == Stop(u, Steady)
  {
    var u := Perform(v, ObserveAll(v.net.spec.vpcID, v.net.spec.subnetID, group));
    if v.net.spec.GroupManaged() {
      RulesQuiet(u);
      GroupQuiet(u, names.group);
    }
    ObserveAgain(u, names, group);
  }

  lemma ObserveAgain(u: World, names: ResourceNames, group: Id)
    requires u.net.spec.vpcID in u.cloud.vpcs && u.net.spec.subnetID in u.cloud.subnets
    requires group == if u.net.spec.GroupManaged() then u.net.status.group.id else u.net.spec.groupID
    requires ObservedGroupStage(u, names, NO_FAULT) == Go(u)
    requires Perform(u, ObserveAll(u.net.spec.vpcID, u.net.spec.subnetID, group)) == u
    ensures ObservePass(u, names, NO_FAULT) == Stop(u, Steady)
  {
  }

  lemma PolicyFixed(w: World, names: ResourceNames, f: Fault)
    requires w.cloud.Valid() && w.net.uid != "" && names.group != "" && PolicyPass(w, names, f).exit.Steady?
    ensures var v := PolicyPass(w, names, f).w; SameObject(w, v) && IsReady(v.net) && PolicyPass(v, names, NO_FAULT) == Stop(v, Steady)
  {
    match w.net.spec.Effective() {
      case Managed => ManagedFixed(w, names, f);
      case Adopt => AdoptFixed(w, f);
      case Observe => ObserveFixed(w, names, f);
      case _ =>
    }
  }

  lemma LiveFixed(w: World, names: ResourceNames, f: Fault)
    requires w.cloud.Valid() && w.net.uid != "" && names.group != "" && Live(w.net) && LivePass(w, names, f).exit.Steady?
    ensures var v := LivePass(w, names, f).w;
            && Live(v.net) && v.net.spec == w.net.spec && v.net.uid == w.net.uid && v.net.cluster == w.net.cluster
            && IsReady(v.net) && Bound(v) && v.env == w.env && LivePass(v, names, NO_FAULT) == Stop(v, Steady)
  {
    hide PolicyPass, IsReady, Fail, Cloud.Valid;
    var w1 := BindOwner(w, f).w;
    PolicyFixed(w1, names, f);
    BoundPass(PolicyPass(w1, names, f).w, names);
  }

  lemma BoundPass(v: World, names: ResourceNames)
    requires Live(v.net) && Bound(v)
    ensures LivePass(v, names, NO_FAULT) == PolicyPass(v, names, NO_FAULT)
  {
  }

  lemma SameNames(a: Network, b: Network)
    requires a.spec == b.spec && a.cluster == b.cluster && a.Token() == b.Token()
    ensures a.Names() == b.Names()
  {
  }

  lemma GroupIsNamed(n: Network)
    ensures n.Names().group != ""
  {
    NamesCarryToken(n);
  }

  /**
   Fixed point: once a pass has ended well, whatever happened before it, another fault-free pass
   creates nothing, deletes nothing, changes no rule and leaves the object as it is.
   */
  lemma SteadyIsFixed(w: World, f: Fault)
    requires Inv(w) && Pass(w, f).exit.Steady?
    ensures Pass(Pass(w, f).w, NO_FAULT) == Stop(Pass(w, f).w, Steady)
    ensures Live(Pass(w, f).w.net) && IsReady(Pass(w, f).w.net) && Bound(Pass(w, f).w) && Pass(w, f).w.env == w.env
  {
    hide Pass, LivePass, Network.Names, Once, ReadyMeans, Bound;
    var ms := PassSteps(w, f);
    Keeps(w, ms, Pass(w, f).w);
    SteadyIsLive(w, f);
    GroupIsNamed(w.net);
    LiveFixed(w, w.net.Names(), f);
    SameNames(w.net, Pass(w, f).w.net);
    LiveIs(Pass(w, f).w);
  }

  lemma LiveIs(w: World)
    requires Live(w.net)
    ensures Pass(w, NO_FAULT) == LivePass(w, w.net.Names(), NO_FAULT)
  {
    hide LivePass, DeletePass, Network.Names;
  }

  lemma SteadyIsLive(w: World, f: Fault)
    requires Pass(w, f).exit.Steady?
    ensures Live(w.net) && Pass(w, f) == LivePass(w, w.net.Names(), f)
  {
    hide LivePass, DeletePass, Network.Names;
  }

  // ---------------------------------------------------------------- creation

  /** Whatever is recorded still exists. */
  predicate RecordsExist(w: World) {
    var s := w.net.status;
    && (s.vpc.id != 0 ==> s.vpc.id in w.cloud.vpcs)
    && (s.subnet.id != 0 ==> s.subnet.id in w.cloud.subnets)
    && (s.group.id != 0 ==> s.group.id in w.cloud.groups)
  }

  lemma FindUnique(ids: set<Id>)
    requires forall i, j :: i in ids && j in ids ==> i == j
    ensures !Find(ids).Many?
  {
    if i :| i in ids {
      assert ids == {i};
    }
  }

  /** The "multiple found" errors are unreachable for names that carry the object's token. */
  lemma NeverMany(w: World, names: ResourceNames)
    requires Once(w) && Carry(names, ShortToken(w.net.uid))
    ensures !Find(VPCsNamed(w.cloud, names.vpc)).Many?
    ensures forall v :: !Find(SubnetsNamed(w.cloud, v, names.subnet)).Many?
    ensures !Find(GroupsNamed(w.cloud, names.group)).Many?
  {
    FindUnique(VPCsNamed(w.cloud, names.vpc));
    forall v ensures !Find(SubnetsNamed(w.cloud, v, names.subnet)).Many? {
      FindUnique(SubnetsNamed(w.cloud, v, names.subnet));
    }
    FindUnique(GroupsNamed(w.cloud, names.group));
  }

  lemma VPCReached(w: World, name: string)
    requires w.net.status.vpc.id != 0 ==> w.net.status.vpc.id in w.cloud.vpcs
    requires !Find(VPCsNamed(w.cloud, name)).Many?
    ensures var v := VPCStage(w, name, NO_FAULT);
            v.Go? && v.w.cloud.subnets == w.cloud.subnets && v.w.cloud.groups == w.cloud.groups
  {
  }

  lemma SubnetReached(w: World, name: string)
    requires w.net.status.subnet.id != 0 ==> w.net.status.subnet.id in w.cloud.subnets
    requires !Find(SubnetsNamed(w.cloud, w.net.status.vpc.id, name)).Many?
    ensures var v := SubnetStage(w, name, NO_FAULT);
            v.Go? && v.w.cloud.groups == w.cloud.groups
  {
  }

  lemma GroupReached(w: World, name: string)
    requires w.net.status.group.id != 0 ==> w.net.status.group.id in w.cloud.groups
    requires !Find(GroupsNamed(w.cloud, name)).Many? && w.cloud.Valid() && name != ""
    ensures OwnGroupStage(w, name, NO_FAULT).Go?
  {
    var v := GroupStage(w, name, NO_FAULT);
    assert v.Go?;
    GroupStaged(w, name, NO_FAULT);
    RulesReached(v.w);
  }

  lemma RulesReached(w: World)
    requires w.net.status.group.id in w.cloud.groups
    ensures RuleStage(w, NO_FAULT).Go?
  {
  }

  lemma ResourcesReached(w: World, names: ResourceNames)
    requires Inv(w) && RecordsExist(w) && Carry(names, ShortToken(w.net.uid))
    ensures ResourcesPass(w, names, NO_FAULT).exit.Steady?
  {
    hide VPCStage, SubnetStage, ReadyMeans, Find;
    NeverMany(w, names);
    VPCReached(w, names.vpc);
    VPCStaged(w, names.vpc, NO_FAULT);
    var w1 := VPCStage(w, names.vpc, NO_FAULT).w;
    assert SubnetsNamed(w1.cloud, w1.net.status.vpc.id, names.subnet) == SubnetsNamed(w.cloud, w1.net.status.vpc.id, names.subnet);
    SubnetReached(w1, names.subnet);
    SubnetStaged(w1, names.subnet, NO_FAULT);
    var w2 := SubnetStage(w1, names.subnet, NO_FAULT).w;
    assert GroupsNamed(w2.cloud, names.group) == GroupsNamed(w.cloud, names.group);
    GroupReached(w2, names.group);
  }

  /** The object knows its cluster, or has none and does not expire. */
  predicate ClusterKnown(w: World) {
    match w.env.cluster
    case None => !w.env.expired
    case Some(uid) => uid in w.net.owners
  }

  lemma BindReached(w: World)
    requires ClusterKnown(w)
    ensures var v := BindOwner(w, NO_FAULT);
            && v.Go? && v.w.cloud == w.cloud && v.w.env == w.env && v.w.net.spec == w.net.spec && v.w.net.uid == w.net.uid
            && v.w.net.status == w.net.status.(clusterUID := v.w.net.status.clusterUID)
            && v.w.net.generation == w.net.generation && v.w.net.deleting == w.net.deleting && Bound(v.w)
            && v.w.net.finalizer == w.net.finalizer && v.w.net.owners == w.net.owners
  {
  }

  /** With the finalizer and the owner in place, one fault-free Managed pass ends well. */
  lemma ManagedReached(w: World, names: ResourceNames)
    requires Inv(w) && Live(w.net) && ClusterKnown(w) && RecordsExist(w)
    requires w.net.spec.Effective() == Managed && Carry(names, ShortToken(w.net.uid))
    ensures LivePass(w, names, NO_FAULT).exit.Steady?
  {
    hide ResourcesPass, Carry, LivePass, BindOwner, OwnName, GoodRules;
    BindReached(w);
    var w1 := BindOwner(w, NO_FAULT).w;
    var w2 := TokenStage(w1, NO_FAULT).w;
    assert Inv(w2) && RecordsExist(w2) && w2.net.uid == w.net.uid;
    ResourcesReached(w2, names);
    ManagedLive(w, w1, w2, names);
  }

  lemma ManagedLive(w: World, w1: World, w2: World, names: ResourceNames)
    requires BindOwner(w, NO_FAULT) == Go(w1) && Bound(w1) && TokenStage(w1, NO_FAULT) == Go(w2)
    requires w1.net.spec.Effective() == Managed && ResourcesPass(w2, names, NO_FAULT).exit.Steady?
    ensures LivePass(w, names, NO_FAULT).exit.Steady?
  {
    hide BindOwner, TokenStage, ResourcesPass, ObservePass, AdoptPass;
  }

  /** The machines name a driver-made network that exists. */
  ghost predicate CanAdopt(w: World) {
    var d := Discover(Listed(w.env.machines), w.env.secrets);
    d.Adopted? && d.vpc in w.cloud.vpcs && d.subnet in w.cloud.subnets && d.group in w.cloud.groups
  }

  /** With everything recorded, one fault-free Adopt pass ends well. */
  lemma AdoptReached(w: World, names: ResourceNames)
    requires Live(w.net) && ClusterKnown(w) && RecordsExist(w) && w.net.AllRecorded() && w.net.spec.policy == Adopt
    ensures LivePass(w, names, NO_FAULT).exit.Steady?
  {
    BindReached(w);
    var w1 := BindOwner(w, NO_FAULT).w;
    RulesReached(w1);
    AdoptLive(w, w1, names);
  }

  lemma AdoptLive(w: World, w1: World, names: ResourceNames)
    requires BindOwner(w, NO_FAULT) == Go(w1) && Bound(w1) && w1.net.AllRecorded()
    requires w1.net.spec.policy == Adopt && RuleStage(w1, NO_FAULT).Go?
    ensures LivePass(w, names, NO_FAULT).exit.Steady?
  {
    hide BindOwner, RuleStage, Network.Names, ManagedPass, ObservePass, AdoptStage;
  }

  /** With nothing adopted yet, one fault-free Adopt pass adopts. */
  lemma AdoptAdopts(w: World, names: ResourceNames)
    requires Live(w.net) && ClusterKnown(w) && !w.net.AllRecorded() && w.net.spec.policy == Adopt && CanAdopt(w)
    ensures var d, v := Discover(Listed(w.env.machines), w.env.secrets), LivePass(w, names, NO_FAULT).w;
            v == Perform(BindOwner(w, NO_FAULT).w, AdoptAll(d.vpc, d.subnet, d.group))
  {
    hide BindOwner, Discover, ManagedPass, ObservePass;
    BindReached(w);
  }

  /** A live object that can become ready: what it recorded exists, and adoption can succeed. */
  ghost predicate CanFinish(w: World) {
    && Inv(w) && !w.net.deleting && RecordsExist(w) && (w.env.cluster.Some? || !w.env.expired)
    && (w.net.spec.Effective() == Managed || (w.net.spec.policy == Adopt && (w.net.AllRecorded() || CanAdopt(w))))
  }

  /** The next pass has to adopt first. */
  predicate Finds(w: World) {
    w.net.spec.policy == Adopt && !w.net.AllRecorded()
  }

  /** The passes still needed: finalizer, owner, adoption, and the one that ends well. */
  function Needs(w: World): nat {
    (if w.net.finalizer then 0 else 1) + (if ClusterKnown(w) then 0 else 1) + (if Finds(w) then 1 else 0) + 1
  }

  lemma PassKeepsInv(w: World, f: Fault)
    requires Inv(w)
    ensures Inv(Pass(w, f).w)
  {
    hide Pass, Inv;
    var ms := PassSteps(w, f);
    Keeps(w, ms, Pass(w, f).w);
  }

  lemma OnePassNearer(w: World)
    requires CanFinish(w) && Needs(w) > 1
    ensures CanFinish(FaultFree(w)) && Needs(FaultFree(w)) == Needs(w) - 1
  {
    hide PolicyPass, DeletePass, Network.Names;
    PassKeepsInv(w, NO_FAULT);
    if !w.net.finalizer {
      assert FaultFree(w) == Perform(w, AddFinalizer);
    } else if !ClusterKnown(w) {
      OwnerPass(w, w.net.Names());
    } else {
      AdoptAdopts(w, w.net.Names());
      BindReached(w);
      AdoptedNearer(w, FaultFree(w));
    }
  }

  lemma OwnerPass(w: World, names: ResourceNames)
    requires Live(w.net) && w.env.cluster.Some? && w.env.cluster.value !in w.net.owners
    ensures LivePass(w, names, NO_FAULT).w == Perform(w, AddOwner(w.env.cluster.value))
  {
  }

  lemma AdoptedNearer(w: World, v: World)
    requires CanFinish(w) && Live(w.net) && ClusterKnown(w) && Finds(w) && Inv(v)
    requires var d := Discover(Listed(w.env.machines), w.env.secrets);
             v == Perform(BindOwner(w, NO_FAULT).w, AdoptAll(d.vpc, d.subnet, d.group))
    ensures CanFinish(v) && Needs(v) == Needs(w) - 1
  {
    hide BindOwner, Discover;
    BindReached(w);
  }

  lemma LastPassEnds(w: World)
    requires CanFinish(w) && Needs(w) == 1
    ensures Pass(w, NO_FAULT).exit.Steady?
  {
    hide PolicyPass, BindOwner, DeletePass, Network.Names;
    NamesCarryToken(w.net);
    if w.net.spec.Effective() == Managed {
      ManagedReached(w, w.net.Names());
    } else {
      AdoptReached(w, w.net.Names());
    }
  }

  lemma PassesEnd(w: World)
    requires CanFinish(w) && Needs(w) == 1
    ensures var v := FaultFree(w); FaultFree(v) == v && Live(v.net) && IsReady(v.net)
  {
    hide Pass, Needs, Live, IsReady;
    LastPassEnds(w);
    SteadyIsFixed(w, NO_FAULT);
  }

  /**
   Creation progress: from every reachable live state whose recorded resources exist, at most
   three fault-free passes make a Managed network Ready at its current generation, and at most
   four an Adopt network with an adoptable machine.
   */
  lemma {:induction false} ReadyInAFewPasses(w: World, n: nat)
    requires CanFinish(w) && n >= Needs(w)
    ensures Live(Passes(w, n).net) && IsReady(Passes(w, n).net)
    decreases n
  {
    hide Pass;
    if Needs(w) == 1 {
      PassesEnd(w);
      IterateFixed(FaultFree, FaultFree(w), n - 1);
    } else {
      OnePassNearer(w);
      ReadyInAFewPasses(FaultFree(w), n - 1);
    }
  }

  /** In particular three passes always do for Managed, and four for Adopt. */
  lemma ThreePassesOrFour(w: World)
    requires CanFinish(w)
    ensures var n := if w.net.spec.Effective() == Managed then 3 else 4;
            Live(Passes(w, n).net) && IsReady(Passes(w, n).net)
  {
    hide CanFinish, Passes, ClusterKnown;
    ReadyInAFewPasses(w, if w.net.spec.Effective() == Managed then 3 else 4);
  }
}
