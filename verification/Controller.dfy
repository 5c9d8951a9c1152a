/**
 The network controller, call by call.

 A pass works on its own copy of the object.  Only patches reach the API server, and a patch
 carries what changed in the copy since it was made, so a change whose patch was lost stays
 behind in the copy and is forgotten with it.  Every method is proved to do exactly what the
 corresponding function of `Reconcile` says, whatever call fails.
 */
module Controller {
  import opened Faults
  import opened Names
  import opened Rules
  import opened Adoption
  import opened State
  import opened Protocol
  import opened Reconcile
  import opened Progress
  import opened Service

  // ---------------------------------------------------------------- merge patches

  function Pick<T(==)>(stored: T, before: T, after: T): T {
    if before == after then stored else after
  }

  /** A merge patch: fields that changed in the copy overwrite the stored ones. */
  function MergeResource(stored: ResourceStatus, before: ResourceStatus, after: ResourceStatus): ResourceStatus {
    ResourceStatus(Pick(stored.id, before.id, after.id), Pick(stored.name, before.name, after.name),
                   Pick(stored.managed, before.managed, after.managed))
  }

  function Merge(stored: Status, before: Status, after: Status): Status {
    Status(
      Pick(stored.clusterUID, before.clusterUID, after.clusterUID), Pick(stored.token, before.token, after.token),
      MergeResource(stored.vpc, before.vpc, after.vpc), MergeResource(stored.subnet, before.subnet, after.subnet),
      MergeResource(stored.group, before.group, after.group),
      Pick(stored.applied, before.applied, after.applied), Pick(stored.observed, before.observed, after.observed),
      Pick(stored.ready, before.ready, after.ready))
  }

  /** A patch made from an up-to-date copy stores the copy. */
  lemma MergeFromCurrent(s: Status, after: Status)
    ensures Merge(s, s, after) == after
  {
  }

  /** A failure report changes nothing but Ready, even when the copy holds changes that were lost. */
  lemma MergeReadyOnly(stored: Status, copy: Status)
    requires stored.ready == copy.ready
    ensures Merge(stored, copy, copy.(ready := false)) == stored.(ready := false)
  {
  }

  /** A method that goes on returns nothing; one that ends the pass returns its exit. */
  function AsStep(w: World, exit: Option<Exit>): Step {
    if exit.None? then Go(w) else Stop(w, exit.value)
  }

  /** May the recorded resource be deleted, given what the cloud answers about it? */
  function VerifyResource(status: ResourceStatus, actual: Answer): bool {
    if !status.managed then false
    else match actual
      case NotFound => true
      case Broken => false
      case Got(resource) => resource.name == status.name
  }

  // ---------------------------------------------------------------- the reconciler

  class Reconciler {
    var stored: Network    // what the API server holds
    var network: Network   // the copy the pass works on
    const env: Env
    const service: TCloudService

    constructor (w: World)
      ensures World() == w
    {
      stored, network, env := w.net, w.net, w.env;
      service := new TCloudService(w.cloud);
    }

    /** The state outside the pass. */
    function World(): World
      reads this, service
    {
      State.World(stored, service.Snapshot(), env)
    }

    /** The copy is up to date. */
    predicate Synced()
      reads this
    {
      network == stored
    }

    // -------------------------------------------------------------- writes

    /** Change the status of the copy and patch the difference. */
    method PatchStatus(after: Status, s: Site, f: Fault) returns (ok: bool)
      modifies this
      ensures ok == !Hit(f, s)
      ensures network == old(network).(status := after)
      ensures stored == if ok || f.took then old(stored).(status := Merge(old(stored).status, old(network).status, after))
                        else old(stored)
    {
      var before := network.status;
      network := network.(status := after);
      ok := !Hit(f, s);
      if ok || f.took {
        stored := stored.(status := Merge(stored.status, before, network.status));
      }
    }

    /** Report a failure in the Ready condition; the report may be lost. */
    method ReportFailure(f: Fault) returns (exit: Option<Exit>)
      requires network.status.ready == stored.status.ready
      modifies this
      ensures AsStep(World(), exit) == Fail(old(World()), f)
    {
      MergeReadyOnly(stored.status, network.status);
      var after := network.status.(ready := false);
      if f.told {
        stored := stored.(status := Merge(stored.status, network.status, after));
      }
      network := network.(status := after);
      return Some(Failed);
    }

    /** A status patch from an up-to-date copy is the effect that writes that status. */
    method Record(after: Status, ghost e: Effect, s: Site, f: Fault) returns (exit: Option<Exit>)
      requires Synced() && Perform(World(), e) == WithStatus(World(), after)
      modifies this
      ensures AsStep(World(), exit) == Write(old(World()), e, s, f)
      ensures exit.None? ==> Synced() && network == old(network).(status := after)
    {
      hide Perform, Merge;
      MergeFromCurrent(stored.status, after);
      var ok := PatchStatus(after, s, f);
      return if ok then None else Some(Failed);
    }

    // -------------------------------------------------------------- live stages

    method BindClusterOwner(f: Fault) returns (exit: Option<Exit>)
      requires Synced()
      modifies this
      ensures AsStep(World(), exit) == BindOwner(old(World()), f)
      ensures exit.None? ==> Synced()
    {
      if Hit(f, GetCluster) {
        exit := ReportFailure(f);
        return;
      }
      if env.cluster.None? {
        return None;
      }
      var uid := env.cluster.value;
      if uid !in network.owners {
        network := network.(owners := network.owners + {uid});
        var ok := !Hit(f, PatchOwner);
        if ok || f.took {
          stored := stored.(owners := network.owners);
        }
        if !ok {
          exit := ReportFailure(f);
          return;
        }
        return Some(Again);
      }
      if network.status.clusterUID != uid {
        MergeFromCurrent(stored.status, stored.status.(clusterUID := uid));
        var ok := PatchStatus(network.status.(clusterUID := uid), PatchClusterUID, f);
        if !ok {
          exit := ReportFailure(f);
          return;
        }
      }
      return None;
    }

    method TakeOwnershipToken(f: Fault) returns (exit: Option<Exit>)
      requires Synced()
      modifies this
      ensures AsStep(World(), exit) == TokenStage(old(World()), f)
      ensures exit.None? ==> Synced() && network.status.token == old(network).Token() && SameButStatus(old(network))
    {
      if network.status.token == "" {
        exit := Record(network.status.(token := network.uid), TakeToken, PatchToken, f);
        return;
      }
      return None;
    }

    /** Only the status of the copy changed. */
    predicate SameButStatus(before: Network)
      reads this
    {
      network == before.(status := network.status)
    }

    method ReconcileVPC(name: string, f: Fault) returns (exit: Option<Exit>)
      requires Synced()
      modifies this, service
      ensures AsStep(World(), exit) == VPCStage(old(World()), name, f)
      ensures exit.None? ==> Synced() && network.status.token == old(network).status.token && SameButStatus(old(network))
    {
      hide EnsureVPCCall, Write;
      VPCNameReported(service.Snapshot(), network.status.vpc.id, name, f);
      var vpc := service.EnsureVPC(network.status.vpc.id, name, f);
      if vpc.None? {
        exit := ReportFailure(f);
        return;
      }
      if network.status.vpc.id != vpc.value.id {
        exit := Record(network.status.(vpc := ResourceStatus(vpc.value.id, vpc.value.name, true)),
                       RecordVPC(vpc.value.id), PatchVPC, f);
        return;
      }
      return None;
    }

    method ReconcileSubnet(name: string, f: Fault) returns (exit: Option<Exit>)
      requires Synced()
      modifies this, service
      ensures AsStep(World(), exit) == SubnetStage(old(World()), name, f)
      ensures exit.None? ==> Synced() && network.status.token == old(network).status.token && SameButStatus(old(network))
    {
      hide EnsureSubnetCall, Write;
      SubnetNameReported(service.Snapshot(), network.status.subnet.id, network.status.vpc.id, name, f);
      var subnet := service.EnsureSubnet(network.status.subnet.id, network.status.vpc.id, name, f);
      if subnet.None? {
        exit := ReportFailure(f);
        return;
      }
      if network.status.subnet.id != subnet.value.id {
        exit := Record(network.status.(subnet := ResourceStatus(subnet.value.id, subnet.value.name, true)),
                       RecordSubnet(subnet.value.id), PatchSubnet, f);
        return;
      }
      return None;
    }

    method ReconcileGroup(name: string, f: Fault) returns (exit: Option<Exit>, group: Resource)
      requires Synced()
      modifies this, service
      ensures AsStep(World(), exit) == GroupStage(old(World()), name, f)
      ensures exit.None? ==> && Synced() && SameButStatus(old(network)) && group.id == network.status.group.id
                             && GetGroupCall(service.Snapshot(), group.id) == Some(group)
    {
      hide EnsureGroupCall, EnsureSecurityGroupCall, Write;
      GroupNameReported(service.Snapshot(), network.status.group.id, name, f);
      LookupOnly(service.Snapshot(), network.status.group.id, name, f);
      var found := service.EnsureSecurityGroup(network.status.group.id, name, [], [], ReadGroup, f);
      group := Resource(0, "");
      if found.None? {
        exit := ReportFailure(f);
        return;
      }
      exit, group := None, found.value;
      if network.status.group.id != group.id {
        exit := Record(network.status.(group := ResourceStatus(group.id, group.name, true)),
                       RecordGroup(group.id), PatchGroup, f);
      }
    }

    method ReconcileRules(name: string, f: Fault) returns (exit: Option<Exit>)
      requires Synced() && network.status.group.id != 0
      modifies this, service
      ensures AsStep(World(), exit) == RuleStage(old(World()), f)
      ensures exit.None? ==> Synced() && network == old(network)
    {
      hide EnsureSecurityGroupCall, RuleStage, Wanted, Obsolete;
      RulesOnly(World(), name, f);
      var s, spec := network.status, network.spec;
      var wanted := RKE2Rules(s.group.id, spec.cidrs, spec.cni);
      var obsolete := ObsoleteSSHRules(s.applied, spec.cidrs);
      var group := service.EnsureSecurityGroup(s.group.id, name, wanted, obsolete, ReadRules, f);
      if group.None? {
        exit := ReportFailure(f);
        return;
      }
      return None;
    }

    /** The last patch of a pass over a Managed or Adopt network. */
    method PublishReady(f: Fault) returns (exit: Exit)
      requires Synced()
      modifies this
      ensures Stop(World(), exit) == ReadyStage(old(World()), f)
    {
      var after := network.status.(observed := network.generation, applied := network.spec.cidrs, ready := true);
      var e := Record(after, MarkReady, PatchReady, f);
      return if e.Some? then e.value else Steady;
    }

    method ReconcileManaged(f: Fault) returns (exit: Exit)
      requires Synced() && service.Snapshot().Valid()
      modifies this, service
      ensures Stop(World(), exit) == ManagedPass(old(World()), old(network).Names(), f)
    {
      hide ManagedName, ShortToken, TokenStage, VPCStage, SubnetStage, GroupStage, RuleStage, ReadyStage, Cloud.Valid;
      ghost var names := network.Names();
      var e := TakeOwnershipToken(f);
      if e.Some? { return e.value; }
      var token := ShortToken(network.status.token);
      TokenKeepsCloud(old(World()), f);

      ghost var w1 := World();
      var vpcName := ManagedName(FirstNonEmpty(network.spec.vpcName, network.cluster), token);
      e := ReconcileVPC(vpcName, f);
      if e.Some? { return e.value; }
      VPCStaged(w1, vpcName, f);

      ghost var w2 := World();
      var subnetName := ManagedName(FirstNonEmpty(network.spec.subnetName, network.cluster + "-subnet"), token);
      e := ReconcileSubnet(subnetName, f);
      if e.Some? { return e.value; }
      SubnetStaged(w2, subnetName, f);

      var groupName := ManagedName(FirstNonEmpty(network.spec.groupName, network.cluster + "-rke2"), token);
      GroupIsNamed(old(network));
      assert names == ResourceNames(vpcName, subnetName, groupName);
      var group;
      e, group := ReconcileOwnGroup(groupName, f);
      if e.Some? { return e.value; }
      exit := PublishReady(f);
    }

    /** The object's own group, recorded before its rules are reconciled. */
    method ReconcileOwnGroup(name: string, f: Fault) returns (exit: Option<Exit>, group: Resource)
      requires Synced() && service.Snapshot().Valid() && name != ""
      modifies this, service
      ensures AsStep(World(), exit) == OwnGroupStage(old(World()), name, f)
      ensures exit.None? ==> && Synced() && SameButStatus(old(network)) && group.id == network.status.group.id
                             && GetGroupCall(service.Snapshot(), group.id) == Some(group)
    {
      hide GroupStage, RuleStage, Cloud.Valid;
      exit, group := ReconcileGroup(name, f);
      if exit.Some? { return; }
      GroupStaged(old(World()), name, f);
      RulesKeepName(World(), f);
      exit := ReconcileRules(name, f);
    }

    method ReconcileAdopt(f: Fault) returns (exit: Exit)
      requires Synced()
      modifies this, service
      ensures Stop(World(), exit) == AdoptPass(old(World()), f)
    {
      hide RuleStage, ReadyStage, AdoptStage;
      if network.status.vpc.id == 0 || network.status.subnet.id == 0 || network.status.group.id == 0 {
        exit := AdoptDiscovered(f);
        return;
      }
      var e := ReconcileRules(network.status.group.name, f);
      if e.Some? { return e.value; }
      exit := PublishReady(f);
    }

    method AdoptDiscovered(f: Fault) returns (exit: Exit)
      requires Synced()
      modifies this
      ensures Stop(World(), exit) == AdoptStage(old(World()), f)
    {
      hide Discover, AdoptFound, Fail;
      var e: Option<Exit>;
      if Hit(f, ListMachines) {
        e := ReportFailure(f);
        return e.value;
      }
      var found := DiscoverAdoptableResources(env.machines, env.secrets);
      if found.Refused? {
        e := ReportFailure(f);
        return e.value;
      }
      exit := AdoptResources(found.vpc, found.subnet, found.group, f);
    }

    method AdoptResources(vpcID: Id, subnetID: Id, groupID: Id, f: Fault) returns (exit: Exit)
      requires Synced()
      modifies this
      ensures Stop(World(), exit) == AdoptFound(old(World()), vpcID, subnetID, groupID, f)
    {
      hide Fail, Perform, Write, Discover;
      var e: Option<Exit>;
      var vpc := service.GetVPC(vpcID, ReadVPC, f);
      if !vpc.Got? {
        e := ReportFailure(f);
        return e.value;
      }
      var subnet := service.GetSubnet(subnetID, ReadSubnet, f);
      if !subnet.Got? {
        e := ReportFailure(f);
        return e.value;
      }
      var group := service.GetSecurityGroup(groupID, ReadGroup, f);
      if !group.Got? {
        e := ReportFailure(f);
        return e.value;
      }
      var after := network.status.(
        token := network.uid,
        vpc := ResourceStatus(vpcID, vpc.resource.name, true),
        subnet := ResourceStatus(subnetID, subnet.resource.name, true),
        group := ResourceStatus(groupID, group.resource.name, true));
      AdoptEffect(World(), vpc.resource, subnet.resource, group.resource);
      e := Record(after, AdoptAll(vpcID, subnetID, groupID), PatchResources, f);
      return if e.Some? then e.value else Again;
    }

    /** The group of an Observe network: its own, or the one its spec names. */
    method ObserveGroup(f: Fault) returns (exit: Option<Exit>, group: Resource)
      requires Synced() && service.Snapshot().Valid()
      modifies this, service
      ensures AsStep(World(), exit) == ObservedGroupStage(old(World()), old(network).Names(), f)
      ensures exit.None? ==> && Synced() && SameButStatus(old(network)) && GetGroupCall(service.Snapshot(), group.id) == Some(group)
                             && group.id == if network.spec.GroupManaged() then network.status.group.id else network.spec.groupID
    {
      hide ManagedName, ShortToken, TokenStage, OwnGroupStage, Cloud.Valid;
      group := Resource(0, "");
      if network.spec.groupPolicy == Managed {
        exit := TakeOwnershipToken(f);
        if exit.Some? { return; }
        TokenKeepsCloud(old(World()), f);
        GroupIsNamed(old(network));
        var name := ManagedName(FirstNonEmpty(network.spec.groupName, network.cluster + "-rke2"), ShortToken(network.status.token));
        assert name == old(network).Names().group;
        exit, group := ReconcileOwnGroup(name, f);
        return;
      }
      var found := service.GetSecurityGroup(network.spec.groupID, ReadGroup, f);
      if !found.Got? {
        exit := ReportFailure(f);
        return;
      }
      return None, found.resource;
    }

    method ReconcileObserve(f: Fault) returns (exit: Exit)
      requires Synced() && service.Snapshot().Valid()
      modifies this, service
      ensures Stop(World(), exit) == ObservePass(old(World()), old(network).Names(), f)
    {
      hide ObservedGroupStage, Write, Network.Names, Cloud.Valid, Perform, Fail;
      var spec := network.spec;
      var e: Option<Exit>;
      var vpc := service.GetVPC(spec.vpcID, ReadVPC, f);
      if !vpc.Got? {
        e := ReportFailure(f);
        return e.value;
      }
      var subnet := service.GetSubnet(spec.subnetID, ReadSubnet, f);
      if !subnet.Got? {
        e := ReportFailure(f);
        return e.value;
      }
      GroupIsNamed(network);
      ObserveKeepsNetwork(World(), network.Names(), f);
      var group;
      e, group := ObserveGroup(f);
      if e.Some? { return e.value; }
      var managed := spec.groupPolicy == Managed;
      var after := network.status.(
        observed := network.generation, ready := true,
        vpc := ResourceStatus(spec.vpcID, vpc.resource.name, false),
        subnet := ResourceStatus(spec.subnetID, subnet.resource.name, false),
        group := ResourceStatus(group.id, group.name, managed),
        applied := if managed then spec.cidrs else network.status.applied);
      ObserveEffect(World(), Resource(spec.vpcID, vpc.resource.name), Resource(spec.subnetID, subnet.resource.name), group);
      e := Record(after, ObserveAll(spec.vpcID, spec.subnetID, group.id), PatchReady, f);
      return if e.Some? then e.value else Steady;
    }

    // -------------------------------------------------------------- deletion

    method RemoveFinalizer(done: Exit, f: Fault) returns (exit: Exit)
      requires Synced()
      modifies this
      ensures Stop(World(), exit) == ReleaseStage(old(World()), done, f)
    {
      network := network.(finalizer := false);
      var ok := !Hit(f, Site.RemoveFinalizer);
      if ok || f.took {
        stored := stored.(finalizer := false);
      }
      return if ok then done else Failed;
    }

    method ClearRecord(after: Status, ghost e: Effect, f: Fault) returns (exit: Exit)
      requires Synced() && Perform(World(), e) == WithStatus(World(), after)
      modifies this
      ensures Stop(World(), exit).w == Write(old(World()), e, ClearResource, f).w
      ensures exit == if Hit(f, ClearResource) then Failed else Again
    {
      hide Perform;
      var x := Record(after, e, ClearResource, f);
      return if x.Some? then x.value else Again;
    }

    method DeleteGroupStage(f: Fault) returns (exit: Exit)
      requires Synced()
      modifies this, service
      ensures var w := old(World());
              Stop(World(), exit) == DeleteStage(w, Verified(w.net.status.group, GetGroupCall(w.cloud, w.net.status.group.id)), DeleteGroup, ClearGroup, f)
    {
      hide Perform;
      DeleteEffects(World());
      var actual := service.GetSecurityGroup(network.status.group.id, VerifyOwnership, f);
      if !VerifyResource(network.status.group, actual) {
        var e := ReportFailure(f);
        return e.value;
      }
      var ok := service.DeleteSecurityGroup(network.status.group.id, f);
      if !ok {
        return Failed;
      }
      ClearEffects(World());
      exit := ClearRecord(network.status.(group := NO_RESOURCE), ClearGroup, f);
    }

    method DeleteSubnetStage(f: Fault) returns (exit: Exit)
      requires Synced()
      modifies this, service
      ensures var w := old(World());
              Stop(World(), exit) == DeleteStage(w, Verified(w.net.status.subnet, GetSubnetCall(w.cloud, w.net.status.subnet.id)), DeleteSubnet, ClearSubnet, f)
    {
      hide Perform;
      DeleteEffects(World());
      var actual := service.GetSubnet(network.status.subnet.id, VerifyOwnership, f);
      if !VerifyResource(network.status.subnet, actual) {
        var e := ReportFailure(f);
        return e.value;
      }
      var ok := service.DeleteSubnet(network.status.subnet.id, f);
      if !ok {
        return Failed;
      }
      ClearEffects(World());
      exit := ClearRecord(network.status.(subnet := NO_RESOURCE), ClearSubnet, f);
    }

    method DeleteVPCStage(f: Fault) returns (exit: Exit)
      requires Synced()
      modifies this, service
      ensures var w := old(World());
              Stop(World(), exit) == DeleteStage(w, Verified(w.net.status.vpc, GetVPCCall(w.cloud, w.net.status.vpc.id)), DeleteVPC, ClearVPC, f)
    {
      hide Perform;
      DeleteEffects(World());
      var actual := service.GetVPC(network.status.vpc.id, VerifyOwnership, f);
      if !VerifyResource(network.status.vpc, actual) {
        var e := ReportFailure(f);
        return e.value;
      }
      var ok := service.DeleteVPC(network.status.vpc.id, f);
      if !ok {
        return Failed;
      }
      ClearEffects(World());
      exit := ClearRecord(network.status.(vpc := NO_RESOURCE), ClearVPC, f);
    }

    method ReconcileDelete(f: Fault) returns (exit: Exit)
      requires Synced()
      modifies this, service
      ensures Stop(World(), exit) == DeletePass(old(World()), f)
    {
      hide DeleteStage, ReleaseStage, PortsOn, InstancePorts, Perform;
      if !network.finalizer {
        return Gone;
      }
      if network.spec.policy == Abandon {
        exit := RemoveFinalizer(Abandoned, f);
        return;
      }
      var s := network.status;
      if !s.vpc.managed && !s.subnet.managed && !s.group.managed {
        exit := RemoveFinalizer(NothingLeft, f);
        return;
      }
      if Hit(f, ListMachines) {
        return Failed;
      }
      if |env.machines| > 0 {
        return Waiting;
      }
      if Hit(f, Credentials) {
        var e := ReportFailure(f);
        return e.value;
      }
      if s.subnet.managed && s.subnet.id != 0 {
        var ports := service.AttachedPorts(s.subnet.id, f);
        if ports.None? {
          var e := ReportFailure(f);
          return e.value;
        }
        if ports.value > 0 {
          return Waiting;
        }
      }
      if s.group.managed && s.group.id != 0 {
        exit := DeleteGroupStage(f);
        return;
      }
      if s.subnet.managed && s.subnet.id != 0 {
        exit := DeleteSubnetStage(f);
        return;
      }
      if s.vpc.managed && s.vpc.id != 0 {
        exit := DeleteVPCStage(f);
        return;
      }
      exit := RemoveFinalizer(AllDeleted, f);
    }

    // -------------------------------------------------------------- the pass

    /** One call of Reconcile does what `Pass` says, whatever call fails. */
    method Reconcile(f: Fault) returns (exit: Exit)
      requires service.Snapshot().Valid()
      modifies this, service
      ensures Stop(World(), exit) == Pass(old(World()), f)
    {
      hide LivePass, DeletePass, Network.Names, Cloud.Valid;
      if Hit(f, GetNetwork) {
        return Failed;
      }
      network := stored;
      if network.deleting {
        exit := ReconcileDelete(f);
        return;
      }
      if !network.finalizer {
        network := network.(finalizer := true);
        var ok := !Hit(f, UpdateFinalizer);
        if ok || f.took {
          stored := network;
        }
        return if ok then Again else Failed;
      }
      exit := ReconcileLive(f);
    }

    method ReconcileLive(f: Fault) returns (exit: Exit)
      requires Synced() && service.Snapshot().Valid()
      modifies this, service
      ensures Stop(World(), exit) == LivePass(old(World()), old(network).Names(), f)
    {
      hide BindOwner, PolicyPass, Network.Names, Cloud.Valid;
      BindKeepsNames(old(World()), f);
      var e := BindClusterOwner(f);
      if e.Some? { return e.value; }
      if env.cluster.None? && env.expired {
        var ok := !Hit(f, ExpireNetwork);
        if ok || f.took {
          stored := stored.(deleting := true);
        }
        return if ok then Gone else Failed;
      }
      if Hit(f, Credentials) {
        e := ReportFailure(f);
        return e.value;
      }
      exit := ReconcileByPolicy(f);
    }

    method ReconcileByPolicy(f: Fault) returns (exit: Exit)
      requires Synced() && service.Snapshot().Valid()
      modifies this, service
      ensures Stop(World(), exit) == PolicyPass(old(World()), old(network).Names(), f)
    {
      hide ManagedPass, AdoptPass, ObservePass, Network.Names, Cloud.Valid;
      var policy := network.spec.policy;
      if policy == Unset {
        policy := Managed;
      }
      if policy == Managed {
        exit := ReconcileManaged(f);
      } else if policy == Observe {
        exit := ReconcileObserve(f);
      } else if policy == Adopt {
        exit := ReconcileAdopt(f);
      } else {
        var e := ReportFailure(f);
        exit := e.value;
      }
    }
  }

  lemma TokenKeepsCloud(w: World, f: Fault)
    ensures TokenStage(w, f).w.cloud == w.cloud
  {
  }

  lemma BindKeepsNames(w: World, f: Fault)
    ensures var v := BindOwner(w, f).w; v.net.Names() == w.net.Names() && v.cloud == w.cloud && v.env == w.env
  {
    hide ManagedName, ShortToken, BindOwner;
    BindKeeps(w, f);
  }

  // The effects of deletion and adoption, spelled out.

  lemma DeleteEffects(w: World)
    ensures var c, s := w.cloud, w.net.status;
            && Perform(w, DeleteGroup) == w.(cloud := c.(groups := c.groups - {s.group.id}))
            && Perform(w, DeleteSubnet) == w.(cloud := c.(subnets := c.subnets - {s.subnet.id}))
            && Perform(w, DeleteVPC) == w.(cloud := c.(vpcs := c.vpcs - {s.vpc.id}))
  {
  }

  lemma ClearEffects(w: World)
    ensures var s := w.net.status;
            && Perform(w, ClearGroup) == WithStatus(w, s.(group := NO_RESOURCE))
            && Perform(w, ClearSubnet) == WithStatus(w, s.(subnet := NO_RESOURCE))
            && Perform(w, ClearVPC) == WithStatus(w, s.(vpc := NO_RESOURCE))
  {
  }

  lemma AdoptEffect(w: World, vpc: Resource, subnet: Resource, group: Resource)
    requires GetVPCCall(w.cloud, vpc.id) == Some(vpc) && GetSubnetCall(w.cloud, subnet.id) == Some(subnet)
    requires GetGroupCall(w.cloud, group.id) == Some(group)
    ensures Perform(w, AdoptAll(vpc.id, subnet.id, group.id)) ==
            WithStatus(w, w.net.status.(
              token := w.net.uid,
              vpc := ResourceStatus(vpc.id, vpc.name, true),
              subnet := ResourceStatus(subnet.id, subnet.name, true),
              group := ResourceStatus(group.id, group.name, true)))
  {
  }

  lemma ObserveEffect(w: World, vpc: Resource, subnet: Resource, group: Resource)
    requires GetVPCCall(w.cloud, vpc.id) == Some(vpc) && GetSubnetCall(w.cloud, subnet.id) == Some(subnet)
    requires GetGroupCall(w.cloud, group.id) == Some(group)
    ensures Perform(w, ObserveAll(vpc.id, subnet.id, group.id)) ==
            WithStatus(w, w.net.status.(
              observed := w.net.generation, ready := true,
              vpc := ResourceStatus(vpc.id, vpc.name, false),
              subnet := ResourceStatus(subnet.id, subnet.name, false),
              group := ResourceStatus(group.id, group.name, w.net.spec.GroupManaged()),
              applied := if w.net.spec.GroupManaged() then w.net.spec.cidrs else w.net.status.applied))
  {
  }

  lemma RulesKeepName(w: World, f: Fault)
    ensures RuleStage(w, f).Go? ==>
              GetGroupCall(RuleStage(w, f).w.cloud, w.net.status.group.id) == GetGroupCall(w.cloud, w.net.status.group.id)
  {
    hide RulesOf;
  }

  /** The group stage leaves the VPCs and subnets alone. */
  lemma ObserveKeepsNetwork(w: World, names: ResourceNames, f: Fault)
    requires w.cloud.Valid() && names.group != ""
    ensures var r := ObservedGroupStage(w, names, f);
            r.Go? ==> r.w.cloud.vpcs == w.cloud.vpcs && r.w.cloud.subnets == w.cloud.subnets
  {
    hide TokenStage, OwnGroupStage;
    if ObservedGroupStage(w, names, f).Go? && w.net.spec.GroupManaged() {
      TokenKeepsCloud(w, f);
      OwnGroupStaged(TokenStage(w, f).w, names.group, f);
    }
  }
}
