/**
 What Ready says about the cloud: as long as nobody else touches the recorded group, a network
 that reports Ready at its generation has its group in the cloud with every wanted rule in place.
 */
module Serving {
  import opened Faults
  import opened Rules
  import opened RuleProofs
  import opened Adoption
  import opened State
  import opened Protocol
  import opened Invariants
  import opened Runs
  import opened Reconcile
  import opened Progress
  import opened Lifecycle
  import opened Access

  /** Everything is on record, and the group exists with every wanted rule. */
  ghost predicate InPlace(w: World) {
    && w.net.AllRecorded() && w.net.status.applied == w.net.spec.cidrs
    && w.net.status.group.id in w.cloud.groups && AllWanted(w)
  }

  /** What an object at its generation promises about its group. */
  ghost predicate Served(w: World) {
    !w.net.deleting && w.net.status.observed == w.net.generation && RulesWanted(w.net.spec) ==> InPlace(w)
  }

  /** From `w` to `v` nothing in place is lost, and the generation is observed only in place. */
  ghost predicate Upholds(w: World, v: World) {
    && v.net.spec == w.net.spec && v.net.generation == w.net.generation
    && (InPlace(w) ==> InPlace(v))
    && (v.net.status.observed == w.net.status.observed || InPlace(v))
  }

  lemma UpholdsOn(u: World, w: World, v: World)
    requires Upholds(u, w) && Upholds(w, v)
    ensures Upholds(u, v)
  {
    hide InPlace;
  }

  /** Everything that matters is kept. */
  predicate KeepsPlace(w: World, v: World) {
    && v.net.spec == w.net.spec && v.net.generation == w.net.generation && v.net.status.observed == w.net.status.observed
    && v.net.status.applied == w.net.status.applied && v.net.status.group == w.net.status.group && v.cloud.groups == w.cloud.groups
    && KeepsRecords(w, v)
  }

  lemma PlaceKept(w: World, v: World)
    requires KeepsPlace(w, v)
    ensures Upholds(w, v)
  {
    hide Has, Wanted;
  }

  // ---------------------------------------------------------------- stages

  lemma FailUpholds(w: World, f: Fault)
    ensures Upholds(w, Fail(w, f).w)
  {
    hide Upholds;
    PlaceKept(w, Fail(w, f).w);
  }

  lemma BindUpholds(w: World, f: Fault)
    ensures Upholds(w, BindOwner(w, f).w)
  {
    hide Upholds, BindOwner;
    BindKeeps(w, f);
    PlaceKept(w, BindOwner(w, f).w);
  }

  lemma TokenUpholds(w: World, f: Fault)
    ensures Upholds(w, TokenStage(w, f).w)
  {
    hide Upholds;
    PlaceKept(w, TokenStage(w, f).w);
  }

  lemma VPCUpholds(w: World, name: string, f: Fault)
    ensures Upholds(w, VPCStage(w, name, f).w)
  {
    hide Upholds, EnsureVPCCall, Onward;
    VPCCallKeeps(w.cloud, w.net.status.vpc.id, name, f);
    VPCBuilds(w, name, f);
    PlaceKept(w, VPCStage(w, name, f).w);
  }

  lemma SubnetUpholds(w: World, name: string, f: Fault)
    ensures Upholds(w, SubnetStage(w, name, f).w)
  {
    hide Upholds, EnsureSubnetCall, Onward;
    SubnetCallKeeps(w.cloud, w.net.status.subnet.id, w.net.status.vpc.id, name, f);
    SubnetBuilds(w, name, f);
    PlaceKept(w, SubnetStage(w, name, f).w);
  }

  lemma GroupUpholds(w: World, name: string, f: Fault)
    ensures Upholds(w, GroupStage(w, name, f).w)
  {
    hide InPlace, Find, Fail;
    FailUpholds(w, f);
    if w.net.status.group.id != 0 && w.net.status.group.id in w.cloud.groups {
      PlaceKept(w, w);
    } else {
      NotInPlace(w);
      GroupStageSays(w, name, f);
    }
  }

  lemma NotInPlace(w: World)
    requires w.net.status.group.id == 0 || w.net.status.group.id !in w.cloud.groups
    ensures !InPlace(w)
  {
  }

  lemma GroupStageSays(w: World, name: string, f: Fault)
    ensures var v := GroupStage(w, name, f).w;
            v.net.spec == w.net.spec && v.net.generation == w.net.generation && v.net.status.observed == w.net.status.observed
  {
    hide EnsureGroupCall;
  }

  /** With the group in place a rule pass changes nothing, whatever call would have failed. */
  lemma RulesUphold(w: World, f: Fault)
    ensures Upholds(w, RuleStage(w, f).w)
  {
    hide RulesOf, InPlace, Fail;
    FailUpholds(w, f);
    if w.net.status.group.id in w.cloud.groups {
      var p := RulesOf(w, f);
      var w1 := Perform(w, EditRules(p.rules, p.next));
      if InPlace(w) {
        RulesInPlace(w, f);
        PlaceKept(w, w1);
      }
      FailUpholds(w1, f);
    }
  }

  lemma RulesInPlace(w: World, f: Fault)
    requires InPlace(w)
    ensures var p := RulesOf(w, f); Perform(w, EditRules(p.rules, p.next)).cloud.groups == w.cloud.groups
  {
    hide Wanted, Obsolete, ReconcileRules, Has;
    var s, spec := w.net.status, w.net.spec;
    var group := w.cloud.groups[s.group.id];
    RulesSettled(group.name, group.rules, Wanted(s.group.id, spec.cidrs, spec.cni), spec.cidrs, w.cloud.next, f);
    assert w.cloud.groups[s.group.id := group.(rules := group.rules)] == w.cloud.groups;
  }

  lemma ReadyUpholds(w: World, f: Fault)
    requires w.net.AllRecorded() && w.net.status.group.id in w.cloud.groups && AllWanted(w)
    ensures Upholds(w, ReadyStage(w, f).w)
  {
    hide Wanted, Has;
  }

  lemma OwnGroupUpholds(w: World, name: string, f: Fault)
    ensures Upholds(w, OwnGroupStage(w, name, f).w)
  {
    hide GroupStage, RuleStage, Upholds;
    GroupUpholds(w, name, f);
    var w1 := GroupStage(w, name, f).w;
    RulesUphold(w1, f);
    UpholdsOn(w, w1, RuleStage(w1, f).w);
  }

  // ---------------------------------------------------------------- passes

  lemma ResourcesUphold(w: World, names: ResourceNames, f: Fault)
    requires w.cloud.Valid() && names.group != ""
    ensures Upholds(w, ResourcesPass(w, names, f).w)
  {
    hide VPCStage, SubnetStage, OwnGroupStage, ReadyStage, Upholds, AllWanted, Cloud.Valid;
    VPCUpholds(w, names.vpc, f);
    var s1 := VPCStage(w, names.vpc, f);
    if s1.Stop? { return; }
    VPCStaged(w, names.vpc, f);
    SubnetUpholds(s1.w, names.subnet, f);
    var s2 := SubnetStage(s1.w, names.subnet, f);
    UpholdsOn(w, s1.w, s2.w);
    if s2.Stop? { return; }
    SubnetStaged(s1.w, names.subnet, f);
    OwnGroupUpholds(s2.w, names.group, f);
    var s3 := OwnGroupStage(s2.w, names.group, f);
    UpholdsOn(w, s2.w, s3.w);
    if s3.Stop? { return; }
    OwnGroupStaged(s2.w, names.group, f);
    ReadyUpholds(s3.w, f);
    UpholdsOn(w, s3.w, ReadyStage(s3.w, f).w);
  }

  lemma ManagedUpholds(w: World, names: ResourceNames, f: Fault)
    requires w.cloud.Valid() && names.group != ""
    ensures Upholds(w, ManagedPass(w, names, f).w)
  {
    hide TokenStage, ResourcesPass, Upholds, Cloud.Valid;
    TokenUpholds(w, f);
    var s := TokenStage(w, f);
    if s.Go? {
      TokenCloud(w, f);
      ResourcesUphold(s.w, names, f);
      UpholdsOn(w, s.w, ResourcesPass(s.w, names, f).w);
    }
  }

  lemma TokenCloud(w: World, f: Fault)
    ensures TokenStage(w, f).w.cloud == w.cloud && TokenStage(w, f).w.net.spec == w.net.spec
  {
  }

  lemma AdoptUpholds(w: World, f: Fault)
    requires w.cloud.Valid()
    ensures Upholds(w, AdoptPass(w, f).w)
  {
    hide RuleStage, ReadyStage, AdoptStage, Upholds, AllWanted, Cloud.Valid;
    if w.net.AllRecorded() {
      RulesUphold(w, f);
      var s := RuleStage(w, f);
      if s.Go? {
        RulesMet(w, f);
        ReadyUpholds(s.w, f);
        UpholdsOn(w, s.w, ReadyStage(s.w, f).w);
      }
    } else {
      AdoptStageUpholds(w, f);
    }
  }

  lemma AdoptStageUpholds(w: World, f: Fault)
    requires !w.net.AllRecorded()
    ensures Upholds(w, AdoptStage(w, f).w)
  {
    hide Discover, AdoptFound, Fail, InPlace;
    Incomplete(w);
    FailUpholds(w, f);
    match Discover(Listed(w.env.machines), w.env.secrets)
    case Refused =>
    case Adopted(vpc, subnet, group) => AdoptFoundSays(w, vpc, subnet, group, f);
  }

  lemma Incomplete(w: World)
    requires !w.net.AllRecorded()
    ensures !InPlace(w)
  {
  }

  lemma AdoptFoundSays(w: World, vpc: Id, subnet: Id, group: Id, f: Fault)
    ensures var v := AdoptFound(w, vpc, subnet, group, f).w;
            v.net.spec == w.net.spec && v.net.generation == w.net.generation && v.net.status.observed == w.net.status.observed
  {
    hide Discover;
  }

  lemma HybridUpholds(w: World, names: ResourceNames, f: Fault)
    requires w.cloud.Valid() && names.group != "" && w.net.spec.GroupManaged()
    ensures Upholds(w, ObservePass(w, names, f).w)
  {
    hide TokenStage, OwnGroupStage, Upholds, Fail, Write, Cloud.Valid, AllWanted;
    FailUpholds(w, f);
    TokenUpholds(w, f);
    var s := TokenStage(w, f);
    if s.Go? && w.net.spec.vpcID in w.cloud.vpcs && w.net.spec.subnetID in w.cloud.subnets {
      TokenCloud(w, f);
      OwnGroupUpholds(s.w, names.group, f);
      var g := OwnGroupStage(s.w, names.group, f);
      UpholdsOn(w, s.w, g.w);
      if g.Go? {
        OwnGroupStaged(s.w, names.group, f);
        ObserveUpholds(g.w, w, f);
        var e := ObserveAll(w.net.spec.vpcID, w.net.spec.subnetID, g.w.net.status.group.id);
        UpholdsOn(w, g.w, Write(g.w, e, PatchReady, f).w);
      }
    }
  }

  lemma ObserveUpholds(g: World, w: World, f: Fault)
    requires w.cloud.Valid() && g.cloud.vpcs == w.cloud.vpcs && g.cloud.subnets == w.cloud.subnets && g.net.spec == w.net.spec
    requires w.net.spec.vpcID in w.cloud.vpcs && w.net.spec.subnetID in w.cloud.subnets && w.net.spec.GroupManaged()
    requires g.net.status.group.id != 0 && g.net.status.group.id in g.cloud.groups && AllWanted(g)
    ensures var e := ObserveAll(w.net.spec.vpcID, w.net.spec.subnetID, g.net.status.group.id);
            Upholds(g, Write(g, e, PatchReady, f).w)
  {
    hide Wanted, Has, GoodRules;
  }

  lemma PolicyUpholds(w: World, names: ResourceNames, f: Fault)
    requires w.cloud.Valid() && names.group != "" && RulesWanted(w.net.spec)
    ensures Upholds(w, PolicyPass(w, names, f).w)
  {
    hide ManagedPass, AdoptPass, ObservePass, Upholds, Cloud.Valid;
    match w.net.spec.Effective() {
      case Managed => ManagedUpholds(w, names, f);
      case Adopt => AdoptUpholds(w, f);
      case _ => HybridUpholds(w, names, f);
    }
  }

  lemma LiveUpholds(w: World, names: ResourceNames, f: Fault)
    requires w.cloud.Valid() && names.group != "" && RulesWanted(w.net.spec)
    ensures Upholds(w, LivePass(w, names, f).w)
  {
    hide BindOwner, PolicyPass, Upholds, Fail, Write, Cloud.Valid;
    BindUpholds(w, f);
    var s := BindOwner(w, f);
    if s.Go? {
      BindKeeps(w, f);
      PolicyUpholds(s.w, names, f);
      UpholdsOn(w, s.w, PolicyPass(s.w, names, f).w);
      FailUpholds(s.w, f);
      UpholdsOn(w, s.w, Fail(s.w, f).w);
      ExpireUpholds(s.w, f);
      UpholdsOn(w, s.w, Write(s.w, Expire, ExpireNetwork, f).w);
    }
  }

  lemma ExpireUpholds(w: World, f: Fault)
    ensures Upholds(w, Write(w, Expire, ExpireNetwork, f).w)
  {
    hide Upholds;
    PlaceKept(w, Write(w, Expire, ExpireNetwork, f).w);
  }

  lemma ServedAfter(w: World, v: World)
    requires Inv(w) && Served(w) && Upholds(w, v) && !w.net.deleting
    ensures Served(v)
  {
    hide InPlace;
  }

  /** One pass, cut at any call. */
  lemma ServedPass(w: World, f: Fault)
    requires Inv(w) && Served(w)
    ensures Served(Pass(w, f).w)
  {
    hide Pass, Inv, InPlace, Upholds, RulesWanted;
    PassSelf(w, f);
    if !w.net.deleting && RulesWanted(w.net.spec) {
      PassUpholds(w, f);
      ServedAfter(w, Pass(w, f).w);
    }
  }

  lemma PassUpholds(w: World, f: Fault)
    requires Inv(w) && !w.net.deleting && RulesWanted(w.net.spec)
    ensures Upholds(w, Pass(w, f).w)
  {
    hide LivePass, DeletePass, Network.Names, Upholds, Once, ReadyMeans;
    GroupIsNamed(w.net);
    LiveUpholds(w, w.net.Names(), f);
    FinalizerKept(w);
    PlaceKept(w, w);
  }

  lemma FinalizerKept(w: World)
    ensures Upholds(w, Perform(w, AddFinalizer))
  {
    hide Upholds;
    PlaceKept(w, Perform(w, AddFinalizer));
  }

  // ---------------------------------------------------------------- lives

  /** Others leave the recorded group as it is. */
  ghost predicate GroupLeftAlone(w: World, t: Turn) {
    t.Other? && t.move.Outside? ==>
      var g := w.net.status.group.id;
      g in w.cloud.groups ==> g in t.move.cloud.groups && t.move.cloud.groups[g] == w.cloud.groups[g]
  }

  ghost predicate UndisturbedLife(w: World, ts: seq<Turn>) {
    ts == [] || (UndisturbedLife(w, ts[..|ts| - 1]) && GroupLeftAlone(Life(w, ts[..|ts| - 1]), ts[|ts| - 1]))
  }

  lemma ServedMove(w: World, m: Move)
    requires Inv(w) && Served(w) && !m.Do? && GroupLeftAlone(w, Other(m))
    ensures Served(After(w, m))
  {
    hide Wanted, Has, Sound, Once;
  }

  lemma {:induction false} ServedLife(w: World, ts: seq<Turn>)
    requires Inv(w) && Served(w) && LegalLife(w, ts) && UndisturbedLife(w, ts)
    ensures Served(Life(w, ts))
  {
    hide Pass, Inv, Legal, After, Served;
    if ts != [] {
      var pre, t := ts[..|ts| - 1], ts[|ts| - 1];
      ServedLife(w, pre);
      var ms := LifeIsRun(w, pre);
      match t
      case Reconcile(f) => ServedPass(Life(w, pre), f);
      case Other(m) => ServedMove(Life(w, pre), m);
    }
  }

  /**
   Ready is trustworthy about the cloud too: in every life in which nobody else touches the recorded
   group, whatever was edited and whatever failed, a live network that observed its generation and
   keeps rules has all three resources on record, the applied list of its spec, and its group in
   the cloud with every wanted rule.
   */
  lemma ReadyMeansServed(w: World, ts: seq<Turn>)
    requires Initial(w) && LegalLife(w, ts) && UndisturbedLife(w, ts)
    requires var n := Life(w, ts).net; !n.deleting && IsReady(n) && RulesWanted(n.spec)
    ensures InPlace(Life(w, ts))
  {
    hide Pass, LegalLife, Life, InPlace, Inv;
    InitialInv(w);
    ServedLife(w, ts);
  }

  /**
   What Ready is for: in such a life a Ready network's group admits every CIDR of the spec on tcp/22,
   and lets its nodes reach each other on every port that RKE2 and the network plugin need.
   */
  lemma ReadyAdmitsTraffic(w: World, ts: seq<Turn>, protocol: string, port: int)
    requires Initial(w) && LegalLife(w, ts) && UndisturbedLife(w, ts)
    requires var n := Life(w, ts).net; !n.deleting && IsReady(n) && RulesWanted(n.spec)
    ensures var v := Life(w, ts);
            && v.net.status.group.id in v.cloud.groups
            && var g := v.cloud.groups[v.net.status.group.id];
               && ToSet(v.net.spec.cidrs) <= Open(g.rules)
               && (NodeTraffic(v.net.spec.cni, protocol, port) ==> Admits(g.name, g.rules, protocol, port))
  {
    hide Pass, LegalLife, Life, Initial, NodeTraffic, Admits, Open, ToSet;
    ReadyMeansServed(w, ts);
    InPlaceAdmits(Life(w, ts), protocol, port);
  }

  lemma InPlaceAdmits(v: World, protocol: string, port: int)
    requires InPlace(v)
    ensures var g := v.cloud.groups[v.net.status.group.id];
            && ToSet(v.net.spec.cidrs) <= Open(g.rules)
            && (NodeTraffic(v.net.spec.cni, protocol, port) ==> Admits(g.name, g.rules, protocol, port))
  {
    hide NodeTraffic, Admits, Has, Wanted;
    var g, spec, id := v.cloud.groups[v.net.status.group.id], v.net.spec, v.net.status.group.id;
    if NodeTraffic(spec.cni, protocol, port) {
      AllTrafficAdmitted(g.name, g.rules, id, spec.cidrs, spec.cni, protocol, port);
    }
    forall c | c in ToSet(spec.cidrs) ensures c in Open(g.rules) {
      SSHIsOpen(g.name, g.rules, id, spec.cidrs, spec.cni, c);
    }
  }

  lemma SSHIsOpen(name: string, rules: seq<CloudRule>, group: Id, cidrs: seq<string>, cni: string, c: string)
    requires c in cidrs
    requires forall i :: 0 <= i < |Wanted(group, cidrs, cni)| ==> Has(name, rules, Wanted(group, cidrs, cni)[i])
    ensures c in Open(rules)
  {
    hide Matches, IsSSH, NodeRules, CNIRules;
    var i :| 0 <= i < |cidrs| && cidrs[i] == c;
    assert Wanted(group, cidrs, cni)[i] == SSHRule(c);
    assert Has(name, rules, SSHRule(c));
    var k :| 0 <= k < |rules| && Matches(name, rules[k], SSHRule(c));
    SSHMatches(name, rules[k], c);
    assert rules[k] in rules;
  }
}
