/**
 Recovery: a resource whose create response or record was lost is found again by the next pass
 that gets that far, and no pass creates a second one.
 */
module Recovery {
  import opened Faults
  import opened Names
  import opened Rules
  import opened State
  import opened Protocol
  import opened Invariants
  import opened Runs
  import opened Reconcile
  import opened Refinement
  import opened Progress
  import opened Lifecycle
  import opened Isolation
  import opened Access
  import opened Conservation

  /**
   Since the cloud `c` no resource of the kind was added; `id` is still there under its name and not
   on record, or it is on record as managed.
   */
  ghost predicate Finding(c: Cloud, w: World, name: string, k: Kind, id: Id) {
    && (forall i :: Exists(w.cloud, k, i) ==> Exists(c, k, i))
    && Exists(w.cloud, k, id) && NameIn(w.cloud, k, id) == name
    && (Recorded(w.net, k).id == 0 || Recorded(w.net, k) == ResourceStatus(id, name, true))
  }

  lemma FindingSame(c: Cloud, w: World, v: World, name: string, k: Kind, id: Id)
    requires Finding(c, w, name, k, id) && SameKind(w, v, k)
    ensures Finding(c, v, name, k, id)
  {
    assert forall i :: Exists(v.cloud, k, i) ==> Exists(w.cloud, k, i);
  }

  // ---------------------------------------------------------------- stages of other kinds

  lemma VPCOthers(w: World, name: string, f: Fault)
    ensures var v := VPCStage(w, name, f).w; SameKind(w, v, Subnets) && SameKind(w, v, Groups)
  {
    hide EnsureVPCCall;
    VPCCallKeeps(w.cloud, w.net.status.vpc.id, name, f);
  }

  lemma SubnetOthers(w: World, name: string, f: Fault)
    ensures var v := SubnetStage(w, name, f).w; SameKind(w, v, VPCs) && SameKind(w, v, Groups)
  {
    hide EnsureSubnetCall;
    SubnetCallKeeps(w.cloud, w.net.status.subnet.id, w.net.status.vpc.id, name, f);
  }

  lemma GroupOthers(w: World, name: string, f: Fault)
    ensures var v := GroupStage(w, name, f).w; SameKind(w, v, VPCs) && SameKind(w, v, Subnets)
  {
    hide EnsureGroupCall;
    GroupCallOthers(w.cloud, w.net.status.group.id, name, f);
  }

  lemma GroupCallOthers(c: Cloud, id: Id, name: string, f: Fault)
    ensures var d := EnsureGroupCall(c, id, name, f).cloud; d.vpcs == c.vpcs && d.subnets == c.subnets
  {
    hide Find, GroupsNamed;
  }

  // ---------------------------------------------------------------- stages of the kind

  lemma VPCFinds(c: Cloud, w: World, name: string, f: Fault, id: Id)
    requires Finding(c, w, name, VPCs, id) && Inv(w) && OwnName(ShortToken(w.net.uid), name)
    ensures Finding(c, VPCStage(w, name, f).w, name, VPCs, id)
  {
    hide Find, OwnName, ReadyMeans, Sound;
    FoundIsOne(w, id);
    assert id in VPCsNamed(w.cloud, name);
    assert VPCsNamed(w.cloud, name) == {id};
    FindsTheOne(VPCsNamed(w.cloud, name), id);
  }

  lemma FoundIsOne(w: World, id: Id)
    requires Inv(w)
    ensures id in w.cloud.vpcs || id in w.cloud.subnets || id in w.cloud.groups ==> id != 0
  {
  }

  lemma SubnetFinds(c: Cloud, w: World, name: string, f: Fault, id: Id)
    requires Finding(c, w, name, Subnets, id) && Inv(w) && OwnName(ShortToken(w.net.uid), name) && !w.net.deleting
    ensures Finding(c, SubnetStage(w, name, f).w, name, Subnets, id)
  {
    hide Find, OwnName, ReadyMeans, Sound;
    FoundIsOne(w, id);
    if w.net.status.subnet.id == 0 {
      var named := SubnetsNamed(w.cloud, w.net.status.vpc.id, name);
      assert id in named;
      assert named == {id};
      FindsTheOne(named, id);
    }
  }

  lemma GroupFinds(c: Cloud, w: World, name: string, f: Fault, id: Id)
    requires Finding(c, w, name, Groups, id) && Inv(w) && OwnName(ShortToken(w.net.uid), name)
    ensures Finding(c, GroupStage(w, name, f).w, name, Groups, id)
  {
    hide Find, OwnName, ReadyMeans, Sound;
    FoundIsOne(w, id);
    assert id in GroupsNamed(w.cloud, name);
    assert GroupsNamed(w.cloud, name) == {id};
    FindsTheOne(GroupsNamed(w.cloud, name), id);
  }

  lemma RulesFind(c: Cloud, w: World, name: string, f: Fault, k: Kind, id: Id)
    requires Finding(c, w, name, k, id)
    ensures Finding(c, RuleStage(w, f).w, name, k, id)
  {
    hide RulesOf;
    var v := RuleStage(w, f).w;
    assert forall i :: Exists(v.cloud, k, i) ==> Exists(w.cloud, k, i);
  }

  lemma ReadyFinds(c: Cloud, w: World, name: string, f: Fault, k: Kind, id: Id)
    requires Finding(c, w, name, k, id)
    ensures Finding(c, ReadyStage(w, f).w, name, k, id)
  {
    hide Finding;
    FindingSame(c, w, ReadyStage(w, f).w, name, k, id);
  }

  lemma StagesFind(c: Cloud, w: World, names: ResourceNames, f: Fault, k: Kind, id: Id)
    requires Finding(c, w, NameOf(names, k), k, id) && Inv(w) && Carry(names, ShortToken(w.net.uid)) && !w.net.deleting
    ensures Finding(c, VPCStage(w, names.vpc, f).w, NameOf(names, k), k, id)
    ensures Finding(c, SubnetStage(w, names.subnet, f).w, NameOf(names, k), k, id)
    ensures Finding(c, GroupStage(w, names.group, f).w, NameOf(names, k), k, id)
  {
    hide Finding, Inv, OwnName, VPCStage, SubnetStage, GroupStage, SameKind;
    VPCOthers(w, names.vpc, f);
    SubnetOthers(w, names.subnet, f);
    GroupOthers(w, names.group, f);
    if k != VPCs { FindingSame(c, w, VPCStage(w, names.vpc, f).w, NameOf(names, k), k, id); }
    else { VPCFinds(c, w, names.vpc, f, id); }
    if k != Subnets { FindingSame(c, w, SubnetStage(w, names.subnet, f).w, NameOf(names, k), k, id); }
    else { SubnetFinds(c, w, names.subnet, f, id); }
    if k != Groups { FindingSame(c, w, GroupStage(w, names.group, f).w, NameOf(names, k), k, id); }
    else { GroupFinds(c, w, names.group, f, id); }
  }

  // ---------------------------------------------------------------- passes

  lemma ResourcesFind(c: Cloud, w: World, names: ResourceNames, f: Fault, k: Kind, id: Id)
    requires Finding(c, w, NameOf(names, k), k, id) && Inv(w) && Creating(w.net) && Carry(names, ShortToken(w.net.uid))
    ensures Finding(c, ResourcesPass(w, names, f).w, NameOf(names, k), k, id)
  {
    hide Finding, VPCStage, SubnetStage, GroupStage, RuleStage, ReadyStage, OwnName, Sound, Once, ReadyMeans;
    var name := NameOf(names, k);
    InvGives(w);
    StagesFind(c, w, names, f, k, id);
    var s1 := VPCStage(w, names.vpc, f);
    if s1.Stop? { return; }
    var ms := VPCSteps(w, names.vpc, f);
    Keeps(w, ms, s1.w);
    VPCStaged(w, names.vpc, f);
    InvGives(s1.w);
    StagesFind(c, s1.w, names, f, k, id);
    var s2 := SubnetStage(s1.w, names.subnet, f);
    if s2.Stop? { return; }
    var ns := SubnetSteps(s1.w, names.subnet, f);
    Keeps(s1.w, ns, s2.w);
    SubnetStaged(s1.w, names.subnet, f);
    StagesFind(c, s2.w, names, f, k, id);
    var s3 := GroupStage(s2.w, names.group, f);
    RulesFind(c, s3.w, name, f, k, id);
    ReadyFinds(c, RuleStage(s3.w, f).w, name, f, k, id);
  }

  lemma LiveFinds(c: Cloud, w: World, names: ResourceNames, f: Fault, k: Kind, id: Id)
    requires Finding(c, w, NameOf(names, k), k, id) && Inv(w) && Live(w.net) && w.net.spec.Effective() == Managed
    requires Carry(names, ShortToken(w.net.uid))
    ensures Finding(c, LivePass(w, names, f).w, NameOf(names, k), k, id)
  {
    hide Finding, BindOwner, TokenStage, ResourcesPass, Inv, Fail, AdoptPass, ObservePass, Carry;
    var name := NameOf(names, k);
    BindKeeps(w, f);
    var s := BindOwner(w, f);
    FindingSame(c, w, s.w, name, k, id);
    if s.Stop? { return; }
    var ms := BindSteps(w, f);
    Keeps(w, ms, s.w);
    PaperFinds(c, s.w, f, name, k, id);
    var t := TokenStage(s.w, f);
    if t.Go? {
      InvGives(s.w);
      var ns := TokenSteps(s.w, f);
      Keeps(s.w, ns, t.w);
      TokenStaged(s.w, f);
      ResourcesFind(c, t.w, names, f, k, id);
    }
  }

  lemma PaperFinds(c: Cloud, w: World, f: Fault, name: string, k: Kind, id: Id)
    requires Finding(c, w, name, k, id)
    ensures Finding(c, Fail(w, f).w, name, k, id) && Finding(c, TokenStage(w, f).w, name, k, id)
    ensures Finding(c, Write(w, Expire, ExpireNetwork, f).w, name, k, id)
  {
    hide Finding;
    FindingSame(c, w, Fail(w, f).w, name, k, id);
    FindingSame(c, w, TokenStage(w, f).w, name, k, id);
    FindingSame(c, w, Write(w, Expire, ExpireNetwork, f).w, name, k, id);
  }

  /**
   A pass over a live Managed object that has a resource under its managed name but not on record,
   cut at any call, creates no second one and records none but that one; a pass that ends well has
   recorded it as managed.
   */
  lemma PassFindsLostResource(w: World, f: Fault, k: Kind, id: Id)
    requires Inv(w) && Live(w.net) && w.net.spec.Effective() == Managed && Recorded(w.net, k).id == 0
    requires Exists(w.cloud, k, id) && NameIn(w.cloud, k, id) == NameOf(w.net.Names(), k)
    ensures var v, found := Pass(w, f).w, ResourceStatus(id, NameIn(w.cloud, k, id), true);
            && (forall i :: Exists(v.cloud, k, i) ==> Exists(w.cloud, k, i))
            && (Recorded(v.net, k).id == 0 || Recorded(v.net, k) == found)
            && (Pass(w, f).exit.Steady? ==> Recorded(v.net, k) == found)
  {
    hide Pass, Network.Names, Sound, Once;
    InvGives(w);
    NamesCarryToken(w.net);
    LiveFinds(w.cloud, w, w.net.Names(), f, k, id);
    LivePassIs(w, f);
    if Pass(w, f).exit.Steady? {
      SteadyIsFixed(w, f);
      PassKeepsInv(w, f);
      assert Pass(w, f).w.net.AllRecorded();
    }
  }

  lemma LivePassIs(w: World, f: Fault)
    requires Live(w.net)
    ensures Pass(w, f).w == w || Pass(w, f) == LivePass(w, w.net.Names(), f)
  {
    hide LivePass, DeletePass, Network.Names;
  }
}
