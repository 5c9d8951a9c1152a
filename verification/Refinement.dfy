/**
 Every pass, cut at any call, is a sequence of legal protocol moves.
 */
module Refinement {
  import opened Faults
  import opened Names
  import opened Rules
  import opened RuleProofs
  import opened Adoption
  import opened State
  import opened Protocol
  import opened Invariants
  import opened Runs
  import opened Reconcile

  /** `ms` are effects that lead legally from `w` to `v`. */
  ghost predicate Steps(w: World, ms: seq<Move>, v: World) {
    LegalRun(w, ms) && RunOf(w, ms) == v && forall i :: 0 <= i < |ms| ==> ms[i].Do?
  }

  lemma NoMoves(w: World)
    ensures Steps(w, [], w)
  {
  }

  lemma Then(w: World, ms: seq<Move>, v: World, e: Effect) returns (all: seq<Move>)
    requires Steps(w, ms, v) && Enabled(v, e)
    ensures Steps(w, all, Perform(v, e))
  {
    all := ms + [Do(e)];
    OneMove(v, Do(e));
    Append(w, ms, [Do(e)]);
  }

  lemma Chain(w: World, a: seq<Move>, v: World, b: seq<Move>, u: World) returns (all: seq<Move>)
    requires Steps(w, a, v) && Steps(v, b, u)
    ensures Steps(w, all, u)
  {
    all := a + b;
    Append(w, a, b);
  }

  lemma Keeps(w: World, ms: seq<Move>, v: World)
    requires Inv(w) && Steps(w, ms, v)
    ensures Inv(v)
  {
    InvRun(w, ms);
  }

  /** A failure report may follow. */
  lemma Reported(w: World, ms: seq<Move>, v: World, f: Fault) returns (all: seq<Move>)
    requires Steps(w, ms, v) && v.net.finalizer
    ensures Steps(w, all, Fail(v, f).w)
  {
    if f.told {
      all := Then(w, ms, v, LowerReady);
    } else {
      all := ms;
    }
  }

  lemma Written(w: World, ms: seq<Move>, v: World, e: Effect, s: Site, f: Fault) returns (all: seq<Move>)
    requires Steps(w, ms, v) && Enabled(v, e)
    ensures Steps(w, all, Write(v, e, s, f).w)
  {
    if !Hit(f, s) || f.took {
      all := Then(w, ms, v, e);
    } else {
      all := ms;
    }
  }

  lemma WrittenReported(w: World, ms: seq<Move>, v: World, e: Effect, s: Site, f: Fault) returns (all: seq<Move>)
    requires Steps(w, ms, v) && Enabled(v, e) && v.net.finalizer && Perform(v, e).net.finalizer
    ensures Steps(w, all, ReportedWrite(v, e, s, f).w)
  {
    if !Hit(f, s) {
      all := Then(w, ms, v, e);
    } else if f.took {
      var more := Then(w, ms, v, e);
      all := Reported(w, more, Perform(v, e), f);
    } else {
      all := Reported(w, ms, v, f);
    }
  }

  // ---------------------------------------------------------------- live stages

  lemma BindSteps(w: World, f: Fault) returns (ms: seq<Move>)
    requires Live(w.net)
    ensures Steps(w, ms, BindOwner(w, f).w)
    ensures var v := BindOwner(w, f); v.Go? ==> Live(v.w.net) && v.w.net.spec == w.net.spec && v.w.net.Token() == w.net.Token()
  {
    NoMoves(w);
    if Hit(f, GetCluster) {
      ms := Reported(w, [], w, f);
    } else if w.env.cluster.Some? && w.env.cluster.value !in w.net.owners {
      ms := WrittenReported(w, [], w, AddOwner(w.env.cluster.value), PatchOwner, f);
    } else if w.env.cluster.Some? && w.net.status.clusterUID != w.env.cluster.value {
      ms := WrittenReported(w, [], w, SetClusterUID(w.env.cluster.value), PatchClusterUID, f);
    } else {
      ms := [];
    }
  }

  lemma TokenSteps(w: World, f: Fault) returns (ms: seq<Move>)
    requires Live(w.net) && w.net.uid != ""
    ensures Steps(w, ms, TokenStage(w, f).w)
    ensures var v := TokenStage(w, f);
            v.Go? ==> Live(v.w.net) && v.w.net.spec == w.net.spec && v.w.net.status.token == w.net.Token() && v.w.cloud == w.cloud
  {
    NoMoves(w);
    if w.net.status.token == "" {
      ms := Written(w, [], w, TakeToken, PatchToken, f);
    } else {
      ms := [];
    }
  }

  /** An ensure call finds its resource, or creates it when no resource has the name. */
  lemma VPCCall(c: Cloud, id: Id, name: string, f: Fault)
    requires c.Valid()
    ensures var call := EnsureVPCCall(c, id, name, f);
            && (call.cloud == c || (&& id == 0 && call.cloud == c.(vpcs := c.vpcs[c.next := name], next := c.next + 1)
                                    && forall i :: i in c.vpcs ==> c.vpcs[i] != name))
            && (call.result.Some? ==> && call.result.value.id in call.cloud.vpcs && call.result.value.id != 0
                                      && (if id != 0 then call.result.value.id == id
                                          else call.cloud.vpcs[call.result.value.id] == name))
  {
    assert forall i :: i in c.vpcs ==> (i in VPCsNamed(c, name) <==> c.vpcs[i] == name);
  }

  lemma SubnetCall(c: Cloud, id: Id, vpc: Id, name: string, f: Fault)
    requires c.Valid()
    ensures var call := EnsureSubnetCall(c, id, vpc, name, f);
            && (call.cloud == c || (&& id == 0 && call.cloud == c.(subnets := c.subnets[c.next := Subnet(name, vpc, [])], next := c.next + 1)
                                    && forall i :: i in c.subnets && c.subnets[i].vpc == vpc ==> c.subnets[i].name != name))
            && (call.result.Some? ==> && call.result.value.id in call.cloud.subnets && call.result.value.id != 0
                                      && (if id != 0 then call.result.value.id == id
                                          else call.cloud.subnets[call.result.value.id].name == name &&
                                               call.cloud.subnets[call.result.value.id].vpc == vpc))
  {
    assert forall i :: i in c.subnets ==> (i in SubnetsNamed(c, vpc, name) <==> c.subnets[i].vpc == vpc && c.subnets[i].name == name);
  }

  lemma GroupCall(c: Cloud, id: Id, name: string, f: Fault)
    requires c.Valid()
    ensures var call := EnsureGroupCall(c, id, name, f);
            && (call.cloud == c || (&& id == 0 && call.cloud == c.(groups := c.groups[c.next := Group(name, [])], next := c.next + 1)
                                    && forall i :: i in c.groups ==> c.groups[i].name != name))
            && (call.result.Some? ==> && call.result.value.id in call.cloud.groups && call.result.value.id != 0
                                      && (if id != 0 then call.result.value.id == id
                                          else call.cloud.groups[call.result.value.id].name == name))
  {
    assert forall i :: i in c.groups ==> (i in GroupsNamed(c, name) <==> c.groups[i].name == name);
  }

  lemma VPCSteps(w: World, name: string, f: Fault) returns (ms: seq<Move>)
    requires w.cloud.Valid() && Creating(w.net) && OwnName(Tag(w.net), name)
    ensures Steps(w, ms, VPCStage(w, name, f).w)
    ensures var v := VPCStage(w, name, f);
            v.Go? ==> Creating(v.w.net) && v.w.net.status.vpc.id != 0 && Tag(v.w.net) == Tag(w.net)
  {
    NoMoves(w);
    VPCCall(w.cloud, w.net.status.vpc.id, name, f);
    var call := EnsureVPCCall(w.cloud, w.net.status.vpc.id, name, f);
    var w1 := w.(cloud := call.cloud);
    ms := [];
    if call.cloud != w.cloud {
      ms := Then(w, [], w, Effect.CreateVPC(name));
    }
    if call.result.None? {
      ms := Reported(w, ms, w1, f);
    } else if w.net.status.vpc.id != call.result.value.id {
      ms := Written(w, ms, w1, RecordVPC(call.result.value.id), PatchVPC, f);
    }
  }

  lemma SubnetSteps(w: World, name: string, f: Fault) returns (ms: seq<Move>)
    requires w.cloud.Valid() && Creating(w.net) && w.net.status.vpc.id != 0 && OwnName(Tag(w.net), name)
    ensures Steps(w, ms, SubnetStage(w, name, f).w)
    ensures var v := SubnetStage(w, name, f);
            v.Go? ==> Creating(v.w.net) && v.w.net.status.vpc.id != 0 && v.w.net.status.subnet.id != 0 && Tag(v.w.net) == Tag(w.net)
  {
    NoMoves(w);
    SubnetCall(w.cloud, w.net.status.subnet.id, w.net.status.vpc.id, name, f);
    var call := EnsureSubnetCall(w.cloud, w.net.status.subnet.id, w.net.status.vpc.id, name, f);
    var w1 := w.(cloud := call.cloud);
    ms := [];
    if call.cloud != w.cloud {
      ms := Then(w, [], w, Effect.CreateSubnet(name));
    }
    if call.result.None? {
      ms := Reported(w, ms, w1, f);
    } else if w.net.status.subnet.id != call.result.value.id {
      ms := Written(w, ms, w1, RecordSubnet(call.result.value.id), PatchSubnet, f);
    }
  }

  lemma GroupSteps(w: World, name: string, f: Fault) returns (ms: seq<Move>)
    requires w.cloud.Valid() && CreatingGroup(w.net) && OwnName(Tag(w.net), name)
    ensures Steps(w, ms, GroupStage(w, name, f).w)
    ensures var v := GroupStage(w, name, f);
            v.Go? ==> && CreatingGroup(v.w.net) && v.w.net.status.group.id != 0
                      && v.w.net == w.net.(status := w.net.status.(group := v.w.net.status.group))
                      && v.w.cloud.vpcs == w.cloud.vpcs && v.w.cloud.subnets == w.cloud.subnets
  {
    NoMoves(w);
    GroupCall(w.cloud, w.net.status.group.id, name, f);
    var call := EnsureGroupCall(w.cloud, w.net.status.group.id, name, f);
    var w1 := w.(cloud := call.cloud);
    ms := [];
    if call.cloud != w.cloud {
      ms := Then(w, [], w, Effect.CreateGroup(name));
    }
    if call.result.None? {
      ms := Reported(w, ms, w1, f);
    } else if w.net.status.group.id != call.result.value.id {
      ms := Written(w, ms, w1, RecordGroup(call.result.value.id), PatchGroup, f);
    }
  }

  lemma RuleSteps(w: World, f: Fault) returns (ms: seq<Move>)
    requires w.cloud.Valid() && Live(w.net) && RulesWanted(w.net.spec)
    ensures Steps(w, ms, RuleStage(w, f).w)
    ensures var v := RuleStage(w, f);
            v.Go? ==> && v.w.net == w.net && w.net.status.group.id in v.w.cloud.groups
                      && v.w.cloud.vpcs == w.cloud.vpcs && v.w.cloud.subnets == w.cloud.subnets
  {
    NoMoves(w);
    if Hit(f, ReadRules) || w.net.status.group.id !in w.cloud.groups {
      ms := Reported(w, [], w, f);
    } else {
      var p := RulesOf(w, f);
      var group := w.cloud.groups[w.net.status.group.id];
      RulePassGood(group.name, group.rules, Wanted(w.net.status.group.id, w.net.spec.cidrs, w.net.spec.cni),
                   Obsolete(w.net.status.applied, w.net.spec.cidrs), w.cloud.next, f);
      ms := Then(w, [], w, EditRules(p.rules, p.next));
      if !p.ok {
        ms := Reported(w, ms, Perform(w, EditRules(p.rules, p.next)), f);
      }
    }
  }

  lemma ReadySteps(w: World, f: Fault) returns (ms: seq<Move>)
    requires Enabled(w, MarkReady)
    ensures Steps(w, ms, ReadyStage(w, f).w)
  {
    NoMoves(w);
    ms := Written(w, [], w, MarkReady, PatchReady, f);
  }

  lemma OwnGroupSteps(w: World, group: string, f: Fault) returns (ms: seq<Move>)
    requires Inv(w) && CreatingGroup(w.net) && OwnName(Tag(w.net), group)
    ensures Steps(w, ms, OwnGroupStage(w, group, f).w)
    ensures var v := OwnGroupStage(w, group, f);
            v.Go? ==> && v.w.net == w.net.(status := w.net.status.(group := v.w.net.status.group))
                      && v.w.net.status.group.id in v.w.cloud.groups && v.w.net.status.group.id != 0
                      && v.w.cloud.vpcs == w.cloud.vpcs && v.w.cloud.subnets == w.cloud.subnets
  {
    ms := GroupSteps(w, group, f);
    var s1 := GroupStage(w, group, f);
    Keeps(w, ms, s1.w);
    if s1.Go? {
      var more := RuleSteps(s1.w, f);
      ms := Chain(w, ms, s1.w, more, RuleStage(s1.w, f).w);
    }
  }

  lemma ResourcesSteps(w: World, names: ResourceNames, f: Fault) returns (ms: seq<Move>)
    requires Inv(w) && Creating(w.net) && Carry(names, Tag(w.net))
    ensures Steps(w, ms, ResourcesPass(w, names, f).w)
  {
    ms := VPCSteps(w, names.vpc, f);
    var s1 := VPCStage(w, names.vpc, f);
    Keeps(w, ms, s1.w);
    if s1.Go? {
      var more := SubnetSteps(s1.w, names.subnet, f);
      var s2 := SubnetStage(s1.w, names.subnet, f);
      Keeps(s1.w, more, s2.w);
      ms := Chain(w, ms, s1.w, more, s2.w);
      if s2.Go? {
        var rest := OwnGroupSteps(s2.w, names.group, f);
        var s3 := OwnGroupStage(s2.w, names.group, f);
        ms := Chain(w, ms, s2.w, rest, s3.w);
        if s3.Go? {
          var last := ReadySteps(s3.w, f);
          ms := Chain(w, ms, s3.w, last, ReadyStage(s3.w, f).w);
        }
      }
    }
  }

  lemma ManagedSteps(w: World, names: ResourceNames, f: Fault) returns (ms: seq<Move>)
    requires Inv(w) && Live(w.net) && w.net.spec.Effective() == Managed && Carry(names, ShortToken(w.net.Token()))
    ensures Steps(w, ms, ManagedPass(w, names, f).w)
  {
    ms := TokenSteps(w, f);
    var s1 := TokenStage(w, f);
    Keeps(w, ms, s1.w);
    if s1.Go? {
      var more := ResourcesSteps(s1.w, names, f);
      ms := Chain(w, ms, s1.w, more, ResourcesPass(s1.w, names, f).w);
    }
  }

  lemma AdoptSteps(w: World, f: Fault) returns (ms: seq<Move>)
    requires Inv(w) && Live(w.net) && w.net.spec.policy == Adopt
    ensures Steps(w, ms, AdoptPass(w, f).w)
  {
    NoMoves(w);
    if w.net.AllRecorded() {
      ms := RuleSteps(w, f);
      var s1 := RuleStage(w, f);
      if s1.Go? {
        var last := ReadySteps(s1.w, f);
        ms := Chain(w, ms, s1.w, last, ReadyStage(s1.w, f).w);
      }
    } else {
      ms := AdoptStageSteps(w, f);
    }
  }

  lemma AdoptStageSteps(w: World, f: Fault) returns (ms: seq<Move>)
    requires Live(w.net) && w.net.spec.policy == Adopt && !w.net.AllRecorded()
    ensures Steps(w, ms, AdoptStage(w, f).w)
  {
    hide Discover;
    NoMoves(w);
    var d := Discover(Listed(w.env.machines), w.env.secrets);
    if !Hit(f, ListMachines) && d.Adopted? && !Hit(f, ReadVPC) && !Hit(f, ReadSubnet) && !Hit(f, ReadGroup) &&
       d.vpc in w.cloud.vpcs && d.subnet in w.cloud.subnets && d.group in w.cloud.groups
    {
      ms := Written(w, [], w, AdoptAll(d.vpc, d.subnet, d.group), PatchResources, f);
    } else {
      ms := Reported(w, [], w, f);
    }
  }

  lemma ObservedGroupSteps(w: World, names: ResourceNames, f: Fault) returns (ms: seq<Move>)
    requires Inv(w) && Live(w.net) && Carry(names, ShortToken(w.net.Token())) && w.net.spec.policy == Observe
    ensures Steps(w, ms, ObservedGroupStage(w, names, f).w)
    ensures var v := ObservedGroupStage(w, names, f);
            v.Go? ==> && Live(v.w.net) && v.w.net.spec == w.net.spec
                      && (if w.net.spec.GroupManaged() then v.w.net.status.group.id else w.net.spec.groupID) in v.w.cloud.groups
                      && v.w.cloud.vpcs == w.cloud.vpcs && v.w.cloud.subnets == w.cloud.subnets
  {
    NoMoves(w);
    if w.net.spec.GroupManaged() {
      ms := TokenSteps(w, f);
      var s1 := TokenStage(w, f);
      Keeps(w, ms, s1.w);
      if s1.Go? {
        var more := OwnGroupSteps(s1.w, names.group, f);
        ms := Chain(w, ms, s1.w, more, OwnGroupStage(s1.w, names.group, f).w);
      }
    } else if Hit(f, ReadGroup) || w.net.spec.groupID !in w.cloud.groups {
      ms := Reported(w, [], w, f);
    } else {
      ms := [];
    }
  }

  lemma ObserveSteps(w: World, names: ResourceNames, f: Fault) returns (ms: seq<Move>)
    requires Inv(w) && Live(w.net) && Carry(names, ShortToken(w.net.Token())) && w.net.spec.policy == Observe
    ensures Steps(w, ms, ObservePass(w, names, f).w)
  {
    NoMoves(w);
    var spec := w.net.spec;
    if Hit(f, ReadVPC) || spec.vpcID !in w.cloud.vpcs || Hit(f, ReadSubnet) || spec.subnetID !in w.cloud.subnets {
      ms := Reported(w, [], w, f);
    } else {
      ms := ObservedGroupSteps(w, names, f);
      var s1 := ObservedGroupStage(w, names, f);
      if s1.Go? {
        var group := if spec.GroupManaged() then s1.w.net.status.group.id else spec.groupID;
        ms := Written(w, ms, s1.w, ObserveAll(spec.vpcID, spec.subnetID, group), PatchReady, f);
      }
    }
  }

  lemma LiveSteps(w: World, names: ResourceNames, f: Fault) returns (ms: seq<Move>)
    requires Inv(w) && Live(w.net) && Carry(names, ShortToken(w.net.Token()))
    ensures Steps(w, ms, LivePass(w, names, f).w)
  {
    ms := BindSteps(w, f);
    var s1 := BindOwner(w, f);
    Keeps(w, ms, s1.w);
    if s1.Go? {
      if s1.w.env.cluster.None? && s1.w.env.expired {
        ms := Written(w, ms, s1.w, Expire, ExpireNetwork, f);
      } else if Hit(f, Credentials) {
        ms := Reported(w, ms, s1.w, f);
      } else {
        var more := PolicySteps(s1.w, names, f);
        ms := Chain(w, ms, s1.w, more, PolicyPass(s1.w, names, f).w);
      }
    }
  }

  lemma PolicySteps(w: World, names: ResourceNames, f: Fault) returns (ms: seq<Move>)
    requires Inv(w) && Live(w.net) && Carry(names, ShortToken(w.net.Token()))
    ensures Steps(w, ms, PolicyPass(w, names, f).w)
  {
    match w.net.spec.Effective()
    case Managed => ms := ManagedSteps(w, names, f);
    case Observe => ms := ObserveSteps(w, names, f);
    case Adopt => ms := AdoptSteps(w, f);
    case _ =>
      NoMoves(w);
      ms := Reported(w, [], w, f);
  }

  // ---------------------------------------------------------------- deletion

  lemma DeleteStageSteps(w: World, verified: bool, delete': Effect, clear: Effect, f: Fault) returns (ms: seq<Move>)
    requires w.net.finalizer
    requires verified ==> Enabled(w, delete') && Enabled(Perform(w, delete'), clear)
    ensures Steps(w, ms, DeleteStage(w, verified, delete', clear, f).w)
  {
    NoMoves(w);
    if Hit(f, VerifyOwnership) || !verified {
      ms := Reported(w, [], w, f);
    } else {
      ms := Written(w, [], w, delete', DeleteResource, f);
      if !Hit(f, DeleteResource) {
        ms := Written(w, ms, Perform(w, delete'), clear, ClearResource, f);
      }
    }
  }

  lemma DeleteThenClear(w: World, delete': Effect, clear: Effect)
    requires Sound(w) && Enabled(w, delete')
    requires (delete' == DeleteGroup && clear == ClearGroup) || (delete' == DeleteSubnet && clear == ClearSubnet) ||
             (delete' == DeleteVPC && clear == ClearVPC)
    ensures Enabled(Perform(w, delete'), clear)
  {
  }

  /** The delete a pass issues, if it comes to that: group, then subnet, then VPC. */
  lemma ResourceDeleteSteps(w: World, f: Fault) returns (ms: seq<Move>)
    requires Sound(w) && Cleared(w) && !w.net.NothingManaged()
    ensures Steps(w, ms, ResourceDelete(w, f).w)
  {
    if w.net.status.group.managed {
      ms := GroupDeleteSteps(w, f);
    } else if w.net.status.subnet.managed {
      ms := SubnetDeleteSteps(w, f);
    } else {
      ms := VPCDeleteSteps(w, f);
    }
  }

  lemma GroupDeleteSteps(w: World, f: Fault) returns (ms: seq<Move>)
    requires Sound(w) && Cleared(w) && w.net.status.group.managed
    ensures Steps(w, ms, ResourceDelete(w, f).w)
  {
    var verified := Verified(w.net.status.group, GetGroupCall(w.cloud, w.net.status.group.id));
    if verified { DeleteThenClear(w, DeleteGroup, ClearGroup); }
    ms := DeleteStageSteps(w, verified, DeleteGroup, ClearGroup, f);
  }

  lemma SubnetDeleteSteps(w: World, f: Fault) returns (ms: seq<Move>)
    requires Sound(w) && Cleared(w) && !w.net.status.group.managed && w.net.status.subnet.managed
    ensures Steps(w, ms, ResourceDelete(w, f).w)
  {
    var verified := Verified(w.net.status.subnet, GetSubnetCall(w.cloud, w.net.status.subnet.id));
    if verified { DeleteThenClear(w, DeleteSubnet, ClearSubnet); }
    ms := DeleteStageSteps(w, verified, DeleteSubnet, ClearSubnet, f);
  }

  lemma VPCDeleteSteps(w: World, f: Fault) returns (ms: seq<Move>)
    requires Sound(w) && Cleared(w) && !w.net.status.group.managed && !w.net.status.subnet.managed && w.net.status.vpc.managed
    ensures Steps(w, ms, ResourceDelete(w, f).w)
  {
    var verified := Verified(w.net.status.vpc, GetVPCCall(w.cloud, w.net.status.vpc.id));
    if verified { DeleteThenClear(w, DeleteVPC, ClearVPC); }
    ms := DeleteStageSteps(w, verified, DeleteVPC, ClearVPC, f);
  }

  lemma DeleteSteps(w: World, f: Fault) returns (ms: seq<Move>)
    requires Sound(w) && w.net.deleting
    ensures Steps(w, ms, DeletePass(w, f).w)
  {
    hide PortsOn, NoInstances;
    NoMoves(w);
    NoPortsNoInstances(w.cloud, w.net.status.subnet.id);
    var s := w.net.status;
    ms := [];
    if w.net.finalizer {
      if w.net.spec.policy == Abandon || w.net.NothingManaged() {
        ms := Written(w, [], w, Release, RemoveFinalizer, f);
      } else if Hit(f, ListMachines) || |w.env.machines| > 0 {
      } else if Hit(f, Credentials) || (s.subnet.managed && Hit(f, ReadPorts)) {
        ms := Reported(w, [], w, f);
      } else if s.subnet.managed && PortsOn(w.cloud, s.subnet.id) > 0 {
      } else {
        ms := ResourceDeleteSteps(w, f);
      }
    }
  }

  /** In a sound state a deletion pass never leaves through the trailing exit. */
  lemma TrailingExitUnreachable(w: World, f: Fault)
    requires Sound(w)
    ensures !DeletePass(w, f).exit.AllDeleted?
  {
  }

  // ---------------------------------------------------------------- the pass

  /** Refinement: whatever call fails, what a pass leaves behind is reached by legal moves. */
  lemma PassSteps(w: World, f: Fault) returns (ms: seq<Move>)
    requires Inv(w)
    ensures Steps(w, ms, Pass(w, f).w)
  {
    NoMoves(w);
    if Hit(f, GetNetwork) {
      ms := [];
    } else if w.net.deleting {
      ms := DeleteSteps(w, f);
    } else if !w.net.finalizer {
      ms := Written(w, [], w, AddFinalizer, UpdateFinalizer, f);
    } else {
      NamesCarryToken(w.net);
      ms := LiveSteps(w, w.net.Names(), f);
    }
  }
}
