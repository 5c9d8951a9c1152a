/**
 What a pass tells and how it ends: a failed pass is not Ready, a finalizer goes exactly when it
 may, an unbound object expires, and a bound one says so.
 */
module Reports {
  import opened Faults
  import opened Adoption
  import opened State
  import opened Protocol
  import opened Invariants
  import opened Reconcile
  import opened Refinement
  import opened Progress
  import opened Lifecycle

  /** The calls whose failure a pass returns without reporting it. */
  predicate Unreported(s: Site, deleting: bool) {
    || s.GetNetwork? || s.UpdateFinalizer? || s.ExpireNetwork? || s.PatchToken? || s.PatchVPC? || s.PatchSubnet?
    || s.PatchGroup? || s.PatchResources? || s.PatchReady? || s.DeleteResource? || s.ClearResource? || s.RemoveFinalizer?
    || (s.ListMachines? && deleting)
  }

  /** No failure goes unreported: the report gets through, and only reported calls fail. */
  predicate Told(f: Fault, deleting: bool) {
    f.told && !Unreported(f.at, deleting)
  }

  /** A failed step has lowered Ready. */
  predicate LowersReady(r: Step) {
    r.Stop? && r.exit.Failed? ==> !r.w.net.status.ready
  }

  lemma FailReports(w: World, f: Fault)
    requires f.told
    ensures LowersReady(Fail(w, f))
  {
  }

  lemma BindReports(w: World, f: Fault)
    requires f.told
    ensures LowersReady(BindOwner(w, f))
  {
    hide Perform;
    if w.env.cluster.Some? {
      ReportedReports(w, AddOwner(w.env.cluster.value), PatchOwner, f);
      ReportedReports(w, SetClusterUID(w.env.cluster.value), PatchClusterUID, f);
    }
    FailReports(w, f);
  }

  lemma ReportedReports(w: World, e: Effect, s: Site, f: Fault)
    requires f.told
    ensures LowersReady(ReportedWrite(w, e, s, f))
  {
    hide Perform;
    FailReports(w, f);
    FailReports(Perform(w, e), f);
  }

  lemma VPCReports(w: World, name: string, f: Fault)
    requires Told(f, false)
    ensures LowersReady(VPCStage(w, name, f))
  {
    hide EnsureVPCCall, Perform, Fail;
    FailReports(w.(cloud := EnsureVPCCall(w.cloud, w.net.status.vpc.id, name, f).cloud), f);
  }

  lemma SubnetReports(w: World, name: string, f: Fault)
    requires Told(f, false)
    ensures LowersReady(SubnetStage(w, name, f))
  {
    hide EnsureSubnetCall, Perform, Fail;
    FailReports(w.(cloud := EnsureSubnetCall(w.cloud, w.net.status.subnet.id, w.net.status.vpc.id, name, f).cloud), f);
  }

  lemma GroupReports(w: World, name: string, f: Fault)
    requires Told(f, false)
    ensures LowersReady(GroupStage(w, name, f))
  {
    hide EnsureGroupCall, Perform, Fail;
    FailReports(w.(cloud := EnsureGroupCall(w.cloud, w.net.status.group.id, name, f).cloud), f);
  }

  lemma RulesReport(w: World, f: Fault)
    requires f.told
    ensures LowersReady(RuleStage(w, f))
  {
    hide RulesOf, Perform, Fail;
    FailReports(w, f);
    if w.net.status.group.id in w.cloud.groups {
      var p := RulesOf(w, f);
      FailReports(Perform(w, EditRules(p.rules, p.next)), f);
    }
  }

  lemma OwnGroupReports(w: World, name: string, f: Fault)
    requires Told(f, false)
    ensures LowersReady(OwnGroupStage(w, name, f))
  {
    hide GroupStage, RuleStage;
    GroupReports(w, name, f);
    RulesReport(GroupStage(w, name, f).w, f);
  }

  lemma ManagedReports(w: World, names: ResourceNames, f: Fault)
    requires Told(f, false)
    ensures LowersReady(ManagedPass(w, names, f))
  {
    hide VPCStage, SubnetStage, OwnGroupStage, Perform;
    var w0 := TokenStage(w, f).w;
    VPCReports(w0, names.vpc, f);
    var w1 := VPCStage(w0, names.vpc, f).w;
    SubnetReports(w1, names.subnet, f);
    var w2 := SubnetStage(w1, names.subnet, f).w;
    OwnGroupReports(w2, names.group, f);
  }

  lemma AdoptReports(w: World, f: Fault)
    requires Told(f, false)
    ensures LowersReady(AdoptPass(w, f))
  {
    hide RuleStage, Perform, Discover, Fail;
    RulesReport(w, f);
    FailReports(w, f);
  }

  lemma ObserveReports(w: World, names: ResourceNames, f: Fault)
    requires Told(f, false)
    ensures LowersReady(ObservePass(w, names, f))
  {
    hide OwnGroupStage, Perform, Fail;
    FailReports(w, f);
    OwnGroupReports(TokenStage(w, f).w, names.group, f);
  }

  lemma LiveReports(w: World, names: ResourceNames, f: Fault)
    requires Told(f, false)
    ensures LowersReady(LivePass(w, names, f))
  {
    hide BindOwner, ManagedPass, AdoptPass, ObservePass, Fail, Perform;
    BindReports(w, f);
    var w1 := BindOwner(w, f).w;
    FailReports(w1, f);
    ManagedReports(w1, names, f);
    AdoptReports(w1, f);
    ObserveReports(w1, names, f);
  }

  lemma DeleteReports(w: World, f: Fault)
    requires Told(f, true)
    ensures LowersReady(DeletePass(w, f))
  {
    hide Perform, Fail, PortsOn, DeleteStage;
    FailReports(w, f);
    var s, c := w.net.status, w.cloud;
    DeleteStageReports(w, Verified(s.group, GetGroupCall(c, s.group.id)), DeleteGroup, ClearGroup, f);
    DeleteStageReports(w, Verified(s.subnet, GetSubnetCall(c, s.subnet.id)), DeleteSubnet, ClearSubnet, f);
    DeleteStageReports(w, Verified(s.vpc, GetVPCCall(c, s.vpc.id)), DeleteVPC, ClearVPC, f);
  }

  lemma DeleteStageReports(w: World, verified: bool, d: Effect, c: Effect, f: Fault)
    requires Told(f, true)
    ensures LowersReady(DeleteStage(w, verified, d, c, f))
  {
    hide Perform, Fail;
    FailReports(w, f);
  }

  /**
   A failed pass is not Ready: whatever made it fail, unless the report was lost or the call that
   failed is one of the few whose errors are not reported.
   */
  lemma FailedPassIsNotReady(w: World, f: Fault)
    requires Told(f, w.net.deleting) && Pass(w, f).exit.Failed?
    ensures !Pass(w, f).w.net.status.ready
  {
    hide LivePass, DeletePass, Network.Names, Perform;
    if w.net.deleting {
      DeleteReports(w, f);
    } else {
      LiveReports(w, w.net.Names(), f);
    }
  }

  /** In particular a fault-free pass that fails stops the propagation to machine configs. */
  lemma FailureStopsPropagation(w: World)
    requires Pass(w, NO_FAULT).exit.Failed?
    ensures !Pass(w, NO_FAULT).w.net.status.ready && !Propagates(Pass(w, NO_FAULT).w.net)
  {
    hide Pass;
    FailedPassIsNotReady(w, NO_FAULT);
  }

  /** A Ready Managed network whose VPC is gone from the cloud is Ready no more after the next pass. */
  lemma LostNetworkIsReported(w: World)
    requires Live(w.net) && Bound(w) && w.net.spec.Effective() == Managed && w.net.status.token != ""
    requires w.net.status.vpc.id != 0 && w.net.status.vpc.id !in w.cloud.vpcs
    ensures Pass(w, NO_FAULT).exit.Failed? && !Pass(w, NO_FAULT).w.net.status.ready
  {
    hide Pass, Network.Names;
    LiveIs(w);
    BoundPass(w, w.net.Names());
    LostVPCFails(w, w.net.Names());
    FailedPassIsNotReady(w, NO_FAULT);
  }

  lemma LostVPCFails(w: World, names: ResourceNames)
    requires w.net.spec.Effective() == Managed && w.net.status.token != ""
    requires w.net.status.vpc.id != 0 && w.net.status.vpc.id !in w.cloud.vpcs
    ensures PolicyPass(w, names, NO_FAULT).exit.Failed?
  {
    hide SubnetStage, OwnGroupStage, ReadyStage, AdoptPass, ObservePass;
  }

  /** Without usable credentials a pass neither touches the cloud nor ends well. */
  lemma NothingWithoutCredentials(w: World, f: Fault)
    requires f.at == Credentials
    ensures Pass(w, f).w.cloud == w.cloud && !Pass(w, f).exit.Steady?
  {
    hide LivePass, DeletePass, Network.Names;
    if w.net.deleting {
      DeleteWithoutCredentials(w, f);
    } else {
      LiveWithoutCredentials(w, w.net.Names(), f);
    }
  }

  lemma LiveWithoutCredentials(w: World, names: ResourceNames, f: Fault)
    requires f.at == Credentials
    ensures LivePass(w, names, f).w.cloud == w.cloud && !LivePass(w, names, f).exit.Steady?
  {
    hide BindOwner, PolicyPass;
    BindKeeps(w, f);
  }

  lemma DeleteWithoutCredentials(w: World, f: Fault)
    requires f.at == Credentials
    ensures DeletePass(w, f).w.cloud == w.cloud
  {
    hide ResourceDelete, PortsOn;
  }

  // ---------------------------------------------------------------- how a life ends

  /** The finalizer of a deleted object goes, without a fault, exactly to abandon or with nothing managed. */
  lemma ReleasesExactly(w: World)
    requires Sound(w) && w.net.deleting && w.net.finalizer
    ensures var v := Pass(w, NO_FAULT).w;
            && (!v.net.finalizer <==> || w.net.spec.policy == Abandon
                                      || !(w.net.status.vpc.managed || w.net.status.subnet.managed || w.net.status.group.managed))
            && (!v.net.finalizer ==> v == w.(net := w.net.(finalizer := false)))
            && (!v.net.finalizer ==> Pass(w, NO_FAULT).exit == if w.net.spec.policy == Abandon then Abandoned else NothingLeft)
  {
    hide Pass, Sound, NoInstances;
    if w.net.spec.policy == Abandon || w.net.NothingManaged() {
      ReleasedAtOnce(w);
    } else if !Pass(w, NO_FAULT).w.net.finalizer {
      ReleaseMeans(w, NO_FAULT);
    }
  }

  lemma ReleasedAtOnce(w: World)
    requires w.net.deleting && w.net.finalizer && (w.net.spec.policy == Abandon || w.net.NothingManaged())
    ensures Pass(w, NO_FAULT).w == w.(net := w.net.(finalizer := false))
    ensures Pass(w, NO_FAULT).exit == if w.net.spec.policy == Abandon then Abandoned else NothingLeft
  {
    hide LivePass, ResourceDelete, Network.Names, PortsOn;
  }

  /** A live object starts to be deleted, without a fault, exactly when it is unbound and expired. */
  lemma ExpiresExactly(w: World)
    requires Sound(w) && Live(w.net)
    ensures Pass(w, NO_FAULT).w.net.deleting <==> w.env.cluster.None? && w.env.expired
  {
    hide Pass, Network.Names;
    LiveIs(w);
    ExpireOrNot(w, w.net.Names());
  }

  lemma ExpireOrNot(w: World, names: ResourceNames)
    requires Live(w.net) && w.net.status.token in {"", w.net.uid}
    ensures LivePass(w, names, NO_FAULT).w.net.deleting <==> w.env.cluster.None? && w.env.expired
  {
    hide BindOwner, PolicyPass, KeepsRecords;
    BindKeeps(w, NO_FAULT);
    UnboundGoes(w);
    PolicyOnward(BindOwner(w, NO_FAULT).w, names, NO_FAULT);
  }

  lemma UnboundGoes(w: World)
    ensures w.env.cluster.None? ==> BindOwner(w, NO_FAULT) == Go(w)
  {
  }

  /** A pass that ends well has made the cluster an owner and recorded its UID. */
  lemma SteadyBindsCluster(w: World, f: Fault)
    requires Inv(w) && Pass(w, f).exit.Steady? && w.env.cluster.Some?
    ensures var n := Pass(w, f).w.net; w.env.cluster.value in n.owners && n.status.clusterUID == w.env.cluster.value
  {
    hide Pass, Inv;
    SteadyIsFixed(w, f);
  }

  // ---------------------------------------------------------------- what a pass asks for next

  /** The controller is called again: at once, after a while, or because of the error. */
  predicate Requeues(exit: Exit) {
    exit.Again? || exit.Waiting? || exit.Steady? || exit.Failed?
  }

  lemma LiveExits(w: World, names: ResourceNames, f: Fault)
    ensures var r := LivePass(w, names, f);
            r.exit.Gone? ==> r.w.net.deleting && r.w == BindOwner(w, f).w.(net := BindOwner(w, f).w.net.(deleting := true))
  {
    hide BindOwner, PolicyPass, Fail;
    PolicyExits(BindOwner(w, f).w, names, f);
  }

  lemma PolicyExits(w: World, names: ResourceNames, f: Fault)
    ensures !PolicyPass(w, names, f).exit.Gone?
  {
    hide TokenStage, ResourcesPass, RuleStage, AdoptStage, ObservedGroupStage, Write, Fail;
    ResourcesExit(TokenStage(w, f).w, names, f);
    AdoptExits(w, f);
  }

  lemma ResourcesExit(w: World, names: ResourceNames, f: Fault)
    ensures !ResourcesPass(w, names, f).exit.Gone?
  {
    hide VPCStage, SubnetStage, OwnGroupStage, Perform;
  }

  lemma AdoptExits(w: World, f: Fault)
    ensures !AdoptStage(w, f).exit.Gone?
  {
    hide Discover, Perform, Fail;
  }

  /**
   Nothing unfinished is forgotten: whatever fails, a pass asks to be called again unless the object
   has lost its finalizer, or has just started to be deleted, which calls the controller itself.
   */
  lemma UnfinishedIsRequeued(w: World, f: Fault)
    requires Sound(w)
    ensures var r := Pass(w, f);
            || Requeues(r.exit)
            || (w.net.deleting && !r.w.net.finalizer)
            || (!w.net.deleting && r.w.net.deleting)
  {
    hide LivePass, DeletePass, Network.Names;
    if w.net.deleting {
      DeleteExits(w, f);
      TrailingExitUnreachable(w, f);
    } else {
      LiveExits(w, w.net.Names(), f);
    }
  }

  lemma DeleteExits(w: World, f: Fault)
    ensures var r := DeletePass(w, f); Requeues(r.exit) || r.exit.AllDeleted? || !r.w.net.finalizer
  {
    hide DeleteStage, Fail, PortsOn;
    var s, c := w.net.status, w.cloud;
    DeleteStageExits(w, Verified(s.group, GetGroupCall(c, s.group.id)), DeleteGroup, ClearGroup, f);
    DeleteStageExits(w, Verified(s.subnet, GetSubnetCall(c, s.subnet.id)), DeleteSubnet, ClearSubnet, f);
    DeleteStageExits(w, Verified(s.vpc, GetVPCCall(c, s.vpc.id)), DeleteVPC, ClearVPC, f);
  }

  lemma DeleteStageExits(w: World, verified: bool, d: Effect, c: Effect, f: Fault)
    ensures Requeues(DeleteStage(w, verified, d, c, f).exit)
  {
    hide Perform, Fail;
  }

  /** The long wait is only for an object that is Ready at its generation. */
  lemma OnlyReadyRests(w: World, f: Fault)
    requires Inv(w) && Pass(w, f).exit.Steady?
    ensures var n := Pass(w, f).w.net; n.status.ready && n.status.observed == n.generation && !n.deleting
  {
    hide Pass, Inv;
    SteadyIsFixed(w, f);
  }
}
