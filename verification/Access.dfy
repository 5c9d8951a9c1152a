/**
 SSH access over histories of spec edits and passes: which CIDRs the object's group lets in,
 in every state a cut pass can leave and after every pass that ends well.
 */
module Access {
  import opened Faults
  import opened Names
  import opened Rules
  import opened RuleProofs
  import opened Adoption
  import opened State
  import opened Protocol
  import opened Invariants
  import opened Runs
  import opened Reconcile
  import opened Refinement
  import opened Progress

  /** The group whose rules the object keeps, or will keep once it records it; 0 for none yet. */
  ghost function Target(w: World, name: string): Id {
    if w.net.spec.policy == Adopt && !w.net.AllRecorded() then
      var d := Discover(Listed(w.env.machines), w.env.secrets);
      if d.Adopted? then d.group else 0
    else if w.net.spec.policy == Adopt || w.net.status.group.id != 0 then w.net.status.group.id
    else
      var found := Find(GroupsNamed(w.cloud, name));
      if found.One? then found.id else 0
  }

  /** The CIDRs that group lets in on tcp/22. */
  ghost function Admitted(w: World, name: string): set<string> {
    var g := Target(w, name);
    if g in w.cloud.groups then Open(w.cloud.groups[g].rules) else {}
  }

  /** Nothing that matters for access changes. */
  ghost predicate Idle(w: World, v: World, name: string) {
    && v.net.spec == w.net.spec && v.net.status.applied == w.net.status.applied && Admitted(v, name) == Admitted(w, name)
  }

  /**
   What one pass may do to access.  Cut short, it opens only desired CIDRs and closes only
   dropped ones; once it records the desired list as applied, access is exactly the old one
   plus the desired CIDRs minus the dropped ones.
   */
  ghost predicate Moved(w: World, v: World, name: string, done: bool) {
    var a, d := ToSet(w.net.status.applied), ToSet(w.net.spec.cidrs);
    var old', new' := Admitted(w, name), Admitted(v, name);
    && v.net.spec == w.net.spec
    && ((!done && v.net.status.applied == w.net.status.applied && old' - (a - d) <= new' <= old' + d)
        || (v.net.status.applied == w.net.spec.cidrs && new' == (old' + d) - (a - d)))
  }

  lemma IdleMoved(w: World, v: World, name: string)
    requires Idle(w, v, name)
    ensures Moved(w, v, name, false)
  {
    hide Admitted;
  }

  lemma IdleThenMoved(w: World, u: World, v: World, name: string, done: bool)
    requires Idle(w, u, name) && Moved(u, v, name, done)
    ensures Moved(w, v, name, done)
  {
    hide Admitted;
  }

  lemma IdleTwice(w: World, u: World, v: World, name: string)
    requires Idle(w, u, name) && Idle(u, v, name)
    ensures Idle(w, v, name)
  {
    hide Admitted;
  }

  lemma SameGroups(w: World, v: World, name: string)
    requires v.net.spec == w.net.spec && v.net.status.applied == w.net.status.applied
    requires v.net.status.group.id == w.net.status.group.id && v.cloud.groups == w.cloud.groups
    requires w.net.spec.policy == Adopt ==> v.env == w.env && v.net.AllRecorded() == w.net.AllRecorded()
    ensures Idle(w, v, name)
  {
    hide Discover, Find, Open;
  }

  // ---------------------------------------------------------------- stages

  lemma FailIdle(w: World, name: string, f: Fault)
    ensures Idle(w, Fail(w, f).w, name)
  {
    hide Idle;
    SameGroups(w, Fail(w, f).w, name);
  }

  lemma BindIdle(w: World, name: string, f: Fault)
    ensures Idle(w, BindOwner(w, f).w, name)
  {
    hide Idle, BindOwner;
    BindKeeps(w, f);
    SameGroups(w, BindOwner(w, f).w, name);
  }

  lemma TokenIdle(w: World, name: string, f: Fault)
    ensures Idle(w, TokenStage(w, f).w, name)
  {
    hide Idle;
    SameGroups(w, TokenStage(w, f).w, name);
  }

  lemma VPCIdle(w: World, vpc: string, name: string, f: Fault)
    requires w.net.spec.policy != Adopt
    ensures Idle(w, VPCStage(w, vpc, f).w, name)
  {
    hide Idle, EnsureVPCCall;
    VPCCallKeeps(w.cloud, w.net.status.vpc.id, vpc, f);
    SameGroups(w, VPCStage(w, vpc, f).w, name);
  }

  lemma VPCCallKeeps(c: Cloud, id: Id, name: string, f: Fault)
    ensures var d := EnsureVPCCall(c, id, name, f).cloud; d.subnets == c.subnets && d.groups == c.groups
  {
    hide Find, VPCsNamed;
  }

  lemma SubnetIdle(w: World, subnet: string, name: string, f: Fault)
    requires w.net.spec.policy != Adopt
    ensures Idle(w, SubnetStage(w, subnet, f).w, name)
  {
    hide Idle, EnsureSubnetCall;
    SubnetCallKeeps(w.cloud, w.net.status.subnet.id, w.net.status.vpc.id, subnet, f);
    SameGroups(w, SubnetStage(w, subnet, f).w, name);
  }

  lemma SubnetCallKeeps(c: Cloud, id: Id, vpc: Id, name: string, f: Fault)
    ensures var d := EnsureSubnetCall(c, id, vpc, name, f).cloud; d.vpcs == c.vpcs && d.groups == c.groups
  {
    hide Find, SubnetsNamed;
  }

  lemma CreatedGroupIsFound(c: Cloud, name: string)
    requires c.Valid() && Find(GroupsNamed(c, name)).Missing?
    ensures Find(GroupsNamed(c.(groups := c.groups[c.next := Group(name, [])], next := c.next + 1), name)) == One(c.next)
    ensures c.next !in c.groups
  {
    var d := c.(groups := c.groups[c.next := Group(name, [])], next := c.next + 1);
    assert forall i :: i in GroupsNamed(c, name) <==> i in c.groups && c.groups[i].name == name;
    assert GroupsNamed(c, name) == {};
    assert GroupsNamed(d, name) == {c.next};
  }

  lemma NothingIsOpen()
    ensures Open([]) == {}
  {
  }

  lemma GroupIdle(w: World, name: string, f: Fault)
    requires w.cloud.Valid() && w.net.spec.policy != Adopt
    ensures Idle(w, GroupStage(w, name, f).w, name)
    ensures GroupStage(w, name, f).Go? ==> GroupStage(w, name, f).w.net.status.group.id == Target(GroupStage(w, name, f).w, name)
  {
    hide Idle, Find, Fail, Write, Discover, Open;
    var call := EnsureGroupCall(w.cloud, w.net.status.group.id, name, f);
    FailIdle(w, name, f);
    SameGroups(w, w, name);
    FoundIsNamed(w.cloud, name);
    if w.net.status.group.id == 0 && !Hit(f, ReadGroup) {
      match Find(GroupsNamed(w.cloud, name))
      case Many =>
      case One(i) => RecordIdle(w, i, name, f);
      case Missing =>
        CreatedIdle(w, name);
        var w1 := w.(cloud := call.cloud);
        FailIdle(w1, name, f);
        IdleTwice(w, w1, Fail(w1, f).w, name);
        if call.result.Some? {
          CreatedGroupIsFound(w.cloud, name);
          RecordIdle(w1, w.cloud.next, name, f);
          IdleTwice(w, w1, Write(w1, RecordGroup(w.cloud.next), PatchGroup, f).w, name);
        }
    }
  }

  /** Recording the group that a lookup finds. */
  lemma RecordIdle(w: World, id: Id, name: string, f: Fault)
    requires w.net.spec.policy != Adopt && w.net.status.group.id == 0 && Find(GroupsNamed(w.cloud, name)) == One(id)
    ensures var r := Write(w, RecordGroup(id), PatchGroup, f);
            Idle(w, r.w, name) && (r.Go? && id in w.cloud.groups ==> r.w.net.status.group.id == Target(r.w, name))
  {
    hide Find, Discover, Open, GroupsNamed;
  }

  /** A group that was just created lets nothing in. */
  lemma CreatedIdle(w: World, name: string)
    requires w.cloud.Valid() && w.net.spec.policy != Adopt && w.net.status.group.id == 0
    requires Find(GroupsNamed(w.cloud, name)).Missing?
    ensures var c := w.cloud;
            Idle(w, w.(cloud := c.(groups := c.groups[c.next := Group(name, [])], next := c.next + 1)), name)
  {
    hide Find, Discover, Open, GroupsNamed;
    CreatedGroupIsFound(w.cloud, name);
    NothingIsOpen();
  }

  /** The rule pass moves access as the rules of its group move. */
  lemma RulesMove(w: World, name: string, f: Fault)
    requires w.cloud.Valid() && w.net.status.group.id == Target(w, name)
    ensures var r := RuleStage(w, f);
            && Moved(w, r.w, name, false) && r.w.net.status.applied == w.net.status.applied
            && (r.Go? ==> Admitted(r.w, name) == (Admitted(w, name) + ToSet(w.net.spec.cidrs)) -
                                                 (ToSet(w.net.status.applied) - ToSet(w.net.spec.cidrs)))
  {
    hide RulesOf, Open, Admitted, Idle;
    FailIdle(w, name, f);
    IdleMoved(w, Fail(w, f).w, name);
    if !Hit(f, ReadRules) && w.net.status.group.id in w.cloud.groups {
      RulesOpen(w, f);
      var p := RulesOf(w, f);
      var w1 := Perform(w, EditRules(p.rules, p.next));
      EditMoves(w, p.rules, p.next, name);
      FailIdle(w1, name, f);
      MovedThenIdle(w, w1, Fail(w1, f).w, name);
    }
  }

  lemma MovedThenIdle(w: World, u: World, v: World, name: string)
    requires Moved(w, u, name, false) && Idle(u, v, name)
    ensures Moved(w, v, name, false)
    ensures v.net.status.applied == u.net.status.applied
  {
    hide Admitted;
  }

  lemma RulesOpen(w: World, f: Fault)
    requires w.cloud.Valid() && w.net.status.group.id in w.cloud.groups
    ensures var p, old' := RulesOf(w, f), Open(w.cloud.groups[w.net.status.group.id].rules);
            var d, dropped := ToSet(w.net.spec.cidrs), ToSet(w.net.status.applied) - ToSet(w.net.spec.cidrs);
            old' - dropped <= Open(p.rules) <= old' + d && (p.ok ==> Open(p.rules) == (old' + d) - dropped)
  {
    hide Open, ToSet, ReconcileRules, Wanted, Obsolete;
    var group, s, spec := w.cloud.groups[w.net.status.group.id], w.net.status, w.net.spec;
    OpenAfter(group.name, group.rules, s.group.id, s.applied, spec.cidrs, spec.cni, w.cloud.next, f);
  }

  lemma EditMoves(w: World, rules: seq<CloudRule>, next: Id, name: string)
    requires w.net.status.group.id == Target(w, name) && w.net.status.group.id in w.cloud.groups
    ensures var v := Perform(w, EditRules(rules, next));
            && Admitted(v, name) == Open(rules) && Admitted(w, name) == Open(w.cloud.groups[w.net.status.group.id].rules)
            && v.net == w.net
  {
    hide Open, Discover, Find;
    var v := Perform(w, EditRules(rules, next));
    assert GroupsNamed(v.cloud, name) == GroupsNamed(w.cloud, name);
  }

  /** The last write of a pass that keeps rules. */
  predicate Closing(w: World, e: Effect) {
    || e.MarkReady?
    || (&& e.ObserveAll? && w.net.spec.policy == Observe && w.net.spec.GroupManaged() && e.group == w.net.status.group.id
        && e.vpc in w.cloud.vpcs && e.subnet in w.cloud.subnets && e.group in w.cloud.groups)
  }

  lemma ClosingWrites(w: World, e: Effect, name: string)
    requires Closing(w, e) && w.net.status.group.id == Target(w, name)
    ensures var v := Perform(w, e);
            v.net.spec == w.net.spec && v.net.status.applied == w.net.spec.cidrs && Admitted(v, name) == Admitted(w, name)
  {
    hide Open, Discover, Find;
  }

  /** The rule pass and the write that closes the pass. */
  lemma RulesThenClose(w: World, e: Effect, name: string, f: Fault)
    requires w.cloud.Valid() && w.net.status.group.id == Target(w, name)
    requires RuleStage(w, f).Go? && Closing(RuleStage(w, f).w, e)
    ensures var w1 := RuleStage(w, f).w; Moved(w, Write(w1, e, PatchReady, f).w, name, Write(w1, e, PatchReady, f).Go?)
  {
    hide Admitted, RuleStage, ToSet, Perform, Target, Closing;
    RulesMove(w, name, f);
    var w1 := RuleStage(w, f).w;
    RulesTarget(w, name, f);
    ClosingWrites(w1, e, name);
  }

  lemma RulesTarget(w: World, name: string, f: Fault)
    requires w.net.status.group.id == Target(w, name)
    ensures RuleStage(w, f).w.net.status.group.id == Target(RuleStage(w, f).w, name)
  {
    hide RulesOf, Discover, Find;
    if !Hit(f, ReadRules) && w.net.status.group.id in w.cloud.groups {
      var p := RulesOf(w, f);
      assert GroupsNamed(Perform(w, EditRules(p.rules, p.next)).cloud, name) == GroupsNamed(w.cloud, name);
    }
  }

  // ---------------------------------------------------------------- passes

  lemma RulesReadyMoves(w: World, name: string, f: Fault)
    requires w.cloud.Valid() && w.net.status.group.id == Target(w, name) && RuleStage(w, f).Go?
    ensures var r := ReadyStage(RuleStage(w, f).w, f); Moved(w, r.w, name, r.exit.Steady?)
  {
    hide RuleStage, Moved, Target;
    RulesThenClose(w, MarkReady, name, f);
  }

  lemma AdoptMoves(w: World, name: string, f: Fault)
    requires w.cloud.Valid() && w.net.spec.policy == Adopt
    ensures Moved(w, AdoptPass(w, f).w, name, AdoptPass(w, f).exit.Steady?)
  {
    hide RuleStage, ReadyStage, AdoptStage, Moved, Idle;
    if w.net.AllRecorded() {
      RulesMove(w, name, f);
      if RuleStage(w, f).Go? {
        RulesReadyMoves(w, name, f);
      }
    } else {
      AdoptStageIdle(w, name, f);
      IdleMoved(w, AdoptStage(w, f).w, name);
    }
  }

  lemma AdoptStageIdle(w: World, name: string, f: Fault)
    requires w.cloud.Valid() && w.net.spec.policy == Adopt && !w.net.AllRecorded()
    ensures Idle(w, AdoptStage(w, f).w, name) && !AdoptStage(w, f).exit.Steady?
  {
    hide Discover, Open, Find, Write, Idle, Fail;
    FailIdle(w, name, f);
    match Discover(Listed(w.env.machines), w.env.secrets)
    case Refused =>
    case Adopted(vpc, subnet, group) =>
      if vpc in w.cloud.vpcs && subnet in w.cloud.subnets && group in w.cloud.groups {
        AdoptWriteIdle(w, vpc, subnet, group, name, f);
      }
  }

  lemma AdoptWriteIdle(w: World, vpc: Id, subnet: Id, group: Id, name: string, f: Fault)
    requires w.cloud.Valid() && w.net.spec.policy == Adopt && !w.net.AllRecorded()
    requires Discover(Listed(w.env.machines), w.env.secrets) == Adopted(vpc, subnet, group)
    requires vpc in w.cloud.vpcs && subnet in w.cloud.subnets && group in w.cloud.groups
    ensures Idle(w, Write(w, AdoptAll(vpc, subnet, group), PatchResources, f).w, name)
  {
    hide Discover, Open, Find;
  }

  /** The group stage, the rule pass and the closing write. */
  lemma OwnGroupMoves(w: World, name: string, f: Fault)
    requires w.cloud.Valid() && w.net.spec.policy != Adopt && name != ""
    ensures var r := OwnGroupStage(w, name, f);
            && Moved(w, r.w, name, false)
            && forall e :: r.Go? && Closing(r.w, e) ==>
                 Moved(w, Write(r.w, e, PatchReady, f).w, name, Write(r.w, e, PatchReady, f).Go?)
  {
    hide GroupStage, RuleStage, Moved, Idle, Target, Closing, Write;
    GroupIdle(w, name, f);
    var g := GroupStage(w, name, f);
    IdleMoved(w, g.w, name);
    if g.Go? {
      GroupStaged(w, name, f);
      RulesMove(g.w, name, f);
      var r := RuleStage(g.w, f);
      IdleThenMoved(w, g.w, r.w, name, false);
      forall e | r.Go? && Closing(r.w, e)
        ensures Moved(w, Write(r.w, e, PatchReady, f).w, name, Write(r.w, e, PatchReady, f).Go?)
      {
        RulesThenClose(g.w, e, name, f);
        IdleThenMoved(w, g.w, Write(r.w, e, PatchReady, f).w, name, Write(r.w, e, PatchReady, f).Go?);
      }
    }
  }

  lemma OwnGroupReadyMoves(w: World, name: string, f: Fault)
    requires w.cloud.Valid() && w.net.spec.policy != Adopt && name != ""
    ensures var r := OwnGroupStage(w, name, f);
            if r.Stop? then Moved(w, r.w, name, false)
            else Moved(w, ReadyStage(r.w, f).w, name, ReadyStage(r.w, f).exit.Steady?)
  {
    hide OwnGroupStage, Moved, Perform;
    OwnGroupMoves(w, name, f);
    var r := OwnGroupStage(w, name, f);
    assert Closing(r.w, MarkReady);
  }

  lemma ResourcesMove(w: World, names: ResourceNames, f: Fault)
    requires w.cloud.Valid() && w.net.spec.policy != Adopt && names.group != ""
    ensures var r := ResourcesPass(w, names, f); Moved(w, r.w, names.group, r.exit.Steady?)
  {
    hide VPCStage, SubnetStage, OwnGroupStage, ReadyStage, Moved, Idle;
    VPCIdle(w, names.vpc, names.group, f);
    var s1 := VPCStage(w, names.vpc, f);
    if s1.Stop? {
      IdleMoved(w, s1.w, names.group);
      return;
    }
    VPCStaged(w, names.vpc, f);
    SubnetIdle(s1.w, names.subnet, names.group, f);
    var s2 := SubnetStage(s1.w, names.subnet, f);
    IdleTwice(w, s1.w, s2.w, names.group);
    if s2.Stop? {
      IdleMoved(w, s2.w, names.group);
      return;
    }
    SubnetStaged(s1.w, names.subnet, f);
    OwnGroupReadyMoves(s2.w, names.group, f);
    var r := ResourcesPass(w, names, f);
    IdleThenMoved(w, s2.w, r.w, names.group, r.exit.Steady?);
  }

  lemma ManagedMoves(w: World, names: ResourceNames, f: Fault)
    requires w.cloud.Valid() && w.net.uid != "" && w.net.spec.policy != Adopt && names.group != ""
    ensures var r := ManagedPass(w, names, f); Moved(w, r.w, names.group, r.exit.Steady?)
  {
    hide TokenStage, ResourcesPass, Moved, Idle;
    TokenIdle(w, names.group, f);
    var s := TokenStage(w, f);
    if s.Stop? {
      IdleMoved(w, s.w, names.group);
    } else {
      TokenStaged(w, f);
      ResourcesMove(s.w, names, f);
      IdleThenMoved(w, s.w, ResourcesPass(s.w, names, f).w, names.group, ResourcesPass(s.w, names, f).exit.Steady?);
    }
  }

  lemma HybridMoves(w: World, names: ResourceNames, f: Fault)
    requires w.cloud.Valid() && w.net.uid != "" && w.net.spec.policy == Observe && w.net.spec.GroupManaged() && names.group != ""
    ensures var r := ObservePass(w, names, f); Moved(w, r.w, names.group, r.exit.Steady?)
  {
    hide TokenStage, OwnGroupStage, Moved, Idle, Fail, Write;
    FailIdle(w, names.group, f);
    IdleMoved(w, Fail(w, f).w, names.group);
    TokenIdle(w, names.group, f);
    var s := TokenStage(w, f);
    IdleMoved(w, s.w, names.group);
    if s.Go? && w.net.spec.vpcID in w.cloud.vpcs && w.net.spec.subnetID in w.cloud.subnets {
      TokenStaged(w, f);
      OwnGroupMoves(s.w, names.group, f);
      var g := OwnGroupStage(s.w, names.group, f);
      if g.Go? {
        OwnGroupStaged(s.w, names.group, f);
        var e := ObserveAll(w.net.spec.vpcID, w.net.spec.subnetID, g.w.net.status.group.id);
        assert Closing(g.w, e);
        IdleThenMoved(w, s.w, Write(g.w, e, PatchReady, f).w, names.group, Write(g.w, e, PatchReady, f).Go?);
      } else {
        IdleThenMoved(w, s.w, g.w, names.group, false);
      }
    }
  }

  lemma PolicyMoves(w: World, names: ResourceNames, f: Fault)
    requires w.cloud.Valid() && w.net.uid != "" && RulesWanted(w.net.spec) && names.group != ""
    ensures var r := PolicyPass(w, names, f); Moved(w, r.w, names.group, r.exit.Steady?)
  {
    hide ManagedPass, AdoptPass, ObservePass, Moved;
    match w.net.spec.Effective() {
      case Managed => ManagedMoves(w, names, f);
      case Adopt => AdoptMoves(w, names.group, f);
      case _ => HybridMoves(w, names, f);
    }
  }

  lemma LiveMoves(w: World, names: ResourceNames, f: Fault)
    requires w.cloud.Valid() && w.net.uid != "" && RulesWanted(w.net.spec) && names.group != ""
    ensures var r := LivePass(w, names, f); Moved(w, r.w, names.group, r.exit.Steady?)
  {
    hide BindOwner, PolicyPass, Moved, Idle, Fail, Write;
    var name := names.group;
    BindIdle(w, name, f);
    var s := BindOwner(w, f);
    IdleMoved(w, s.w, name);
    if s.Go? {
      BindKeeps(w, f);
      PolicyMoves(s.w, names, f);
      IdleThenMoved(w, s.w, PolicyPass(s.w, names, f).w, name, PolicyPass(s.w, names, f).exit.Steady?);
      FailIdle(s.w, name, f);
      IdleTwice(w, s.w, Fail(s.w, f).w, name);
      IdleMoved(w, Fail(s.w, f).w, name);
      ExpireIdle(s.w, name, f);
      IdleTwice(w, s.w, Write(s.w, Expire, ExpireNetwork, f).w, name);
      IdleMoved(w, Write(s.w, Expire, ExpireNetwork, f).w, name);
    }
  }

  lemma ExpireIdle(w: World, name: string, f: Fault)
    ensures Idle(w, Write(w, Expire, ExpireNetwork, f).w, name)
  {
    hide Idle;
    SameGroups(w, Write(w, Expire, ExpireNetwork, f).w, name);
  }

  /** One pass over an object that is not being deleted, whatever call fails. */
  lemma PassMoves(w: World, f: Fault)
    requires Inv(w) && !w.net.deleting && RulesWanted(w.net.spec)
    ensures var r, name := Pass(w, f), w.net.Names().group; Moved(w, r.w, name, r.exit.Steady?)
  {
    hide LivePass, DeletePass, Network.Names, Moved, Idle, Once, ReadyMeans;
    var name := w.net.Names().group;
    GroupIsNamed(w.net);
    LiveMoves(w, w.net.Names(), f);
    FinalizerIdle(w, name);
    IdleMoved(w, Perform(w, AddFinalizer), name);
    SameGroups(w, w, name);
    IdleMoved(w, w, name);
  }

  lemma FinalizerIdle(w: World, name: string)
    ensures Idle(w, Perform(w, AddFinalizer), name)
  {
    hide Idle;
    SameGroups(w, Perform(w, AddFinalizer), name);
  }

  // ---------------------------------------------------------------- histories

  ghost function Repeated(w: World, fs: seq<Fault>): World {
    if fs == [] then w else Pass(Repeated(w, fs[..|fs| - 1]), fs[|fs| - 1]).w
  }

  /** A spec edit, any passes cut at any calls, and a last pass. */
  datatype Round = Round(spec: Spec, cut: seq<Fault>, last: Fault)

  function Edited(w: World, spec: Spec): World {
    After(w, Edit(spec))
  }

  ghost function Tried(w: World, r: Round): World {
    Repeated(Edited(w, r.spec), r.cut)
  }

  ghost function AfterRound(w: World, r: Round): World {
    Pass(Tried(w, r), r.last).w
  }

  ghost function AfterRounds(w: World, rs: seq<Round>): World {
    if rs == [] then w else AfterRound(AfterRounds(w, rs[..|rs| - 1]), rs[|rs| - 1])
  }

  /** The edit keeps the rules in the controller's hands and the group where it is. */
  predicate SameKeeping(s: Spec, t: Spec) {
    RulesWanted(s) && RulesWanted(t) && s.groupName == t.groupName && (s.policy == Adopt <==> t.policy == Adopt)
  }

  /** Every edit keeps the group, and every round's last pass ends well. */
  ghost predicate Succeeds(w: World, rs: seq<Round>) {
    rs == [] ||
    (var v, r := AfterRounds(w, rs[..|rs| - 1]), rs[|rs| - 1];
     && Succeeds(w, rs[..|rs| - 1]) && SameKeeping(v.net.spec, r.spec) && Pass(Tried(v, r), r.last).exit.Steady?)
  }

  /** What stays fixed over rounds besides the spec. */
  ghost predicate SameSelf(w: World, v: World) {
    Inv(v) && v.net.uid == w.net.uid && v.net.cluster == w.net.cluster
  }

  lemma PassSelf(w: World, f: Fault)
    requires Inv(w)
    ensures SameSelf(w, Pass(w, f).w) && (w.net.deleting ==> Pass(w, f).w.net.deleting)
    ensures Pass(w, f).w.net.spec == w.net.spec
  {
    hide Pass;
    var ms := PassSteps(w, f);
    InvRun(w, ms);
    IdentityRun(w, ms);
    SpecRun(w, ms);
  }

  lemma SelfName(w: World, v: World)
    requires Sound(w) && Sound(v) && v.net.uid == w.net.uid && v.net.cluster == w.net.cluster
    requires v.net.spec.groupName == w.net.spec.groupName
    ensures v.net.Names().group == w.net.Names().group
  {
    hide ManagedName, ShortToken;
  }

  /** Any passes, cut anywhere, seen from the state the edit left. */
  lemma {:induction false} RepeatedMoves(w: World, fs: seq<Fault>, name: string)
    requires Inv(w) && RulesWanted(w.net.spec) && name == w.net.Names().group && !Repeated(w, fs).net.deleting
    ensures SameSelf(w, Repeated(w, fs)) && Moved(w, Repeated(w, fs), name, false)
  {
    hide Pass, Inv, Network.Names, Moved, RulesWanted, Idle;
    if fs == [] {
      SameGroups(w, w, name);
      IdleMoved(w, w, name);
    } else {
      var v, f := Repeated(w, fs[..|fs| - 1]), fs[|fs| - 1];
      RepeatedSelf(w, fs[..|fs| - 1]);
      PassSelf(v, f);
      RepeatedMoves(w, fs[..|fs| - 1], name);
      NextMoves(w, v, f, name);
      MovedAtLeast(w, Pass(v, f).w, name, Pass(v, f).exit.Steady?);
    }
  }

  lemma {:induction false} RepeatedSelf(w: World, fs: seq<Fault>)
    requires Inv(w)
    ensures SameSelf(w, Repeated(w, fs))
  {
    hide Pass, Inv;
    if fs != [] {
      RepeatedSelf(w, fs[..|fs| - 1]);
      PassSelf(Repeated(w, fs[..|fs| - 1]), fs[|fs| - 1]);
    }
  }

  lemma NextMoves(w: World, v: World, f: Fault, name: string)
    requires SameSelf(w, v) && Inv(w) && RulesWanted(w.net.spec) && !v.net.deleting && name == w.net.Names().group
    requires Moved(w, v, name, false)
    ensures Moved(w, Pass(v, f).w, name, Pass(v, f).exit.Steady?)
  {
    hide Pass, Network.Names, Admitted, Once, ReadyMeans;
    SelfName(w, v);
    PassMoves(v, f);
    MovedTwice(w, v, Pass(v, f).w, name, Pass(v, f).exit.Steady?);
  }

  lemma MovedAtLeast(w: World, v: World, name: string, done: bool)
    requires Moved(w, v, name, done)
    ensures Moved(w, v, name, false)
  {
  }

  lemma MovedTwice(w: World, u: World, v: World, name: string, done: bool)
    requires Moved(w, u, name, false) && Moved(u, v, name, done)
    ensures Moved(w, v, name, done)
  {
    hide Admitted;
  }

  /** One round: whatever was cut, access ends at the old one plus the desired minus the dropped. */
  lemma RoundMoves(w: World, r: Round)
    requires Inv(w) && SameKeeping(w.net.spec, r.spec) && Pass(Tried(w, r), r.last).exit.Steady?
    ensures var v, name := AfterRound(w, r), w.net.Names().group;
            var a, d := ToSet(w.net.status.applied), ToSet(r.spec.cidrs);
            && SameSelf(w, v) && v.net.spec == r.spec && v.net.status.applied == r.spec.cidrs
            && v.net.Names().group == name && Admitted(v, name) == (Admitted(w, name) + d) - (a - d)
            && v.net.status.group.id == Target(v, name)
  {
    hide Pass, Network.Names, Admitted, Once, ReadyMeans;
    var e, name := Edited(w, r.spec), w.net.Names().group;
    InvStep(w, Edit(r.spec));
    EditKeepsAccess(w, r.spec, name);
    SelfName(w, e);
    var v := Tried(w, r);
    SteadyIsLive(v, r.last);
    RepeatedMoves(e, r.cut, name);
    NextMoves(e, v, r.last, name);
    PassSelf(v, r.last);
    SelfName(e, AfterRound(w, r));
    SteadyTarget(v, r.last, name);
  }

  lemma SteadyTarget(w: World, f: Fault, name: string)
    requires Inv(w) && Pass(w, f).exit.Steady?
    ensures Pass(w, f).w.net.status.group.id == Target(Pass(w, f).w, name)
  {
    hide Pass, Sound, Once;
    SteadyIsFixed(w, f);
    PassSelf(w, f);
  }

  lemma EditKeepsAccess(w: World, spec: Spec, name: string)
    requires SameKeeping(w.net.spec, spec)
    ensures var v := Edited(w, spec); Admitted(v, name) == Admitted(w, name) && v.net.status == w.net.status
  {
    hide Discover, Find, Open;
  }

  /** The CIDRs of `u` that no round asks for. */
  function Untouched(u: set<string>, rs: seq<Round>): set<string> {
    set c | c in u && forall i :: 0 <= i < |rs| ==> c !in rs[i].spec.cidrs
  }

  /**
   SSH convergence: whatever list each edit asks for and however many passes are cut in between,
   after each pass that ends well the group admits exactly the current list and those foreign
   CIDRs that no edit ever asked for.
   */
  lemma {:induction false} AccessConverges(w: World, rs: seq<Round>)
    requires Inv(w) && Succeeds(w, rs) && rs != []
    ensures var v, name := AfterRounds(w, rs), w.net.Names().group;
            && SameSelf(w, v) && v.net.Names().group == name && v.net.status.applied == rs[|rs| - 1].spec.cidrs
            && Admitted(v, name) ==
               ToSet(rs[|rs| - 1].spec.cidrs) + Untouched(Admitted(w, name) - ToSet(w.net.status.applied), rs)
            && v.net.status.group.id == Target(v, name)
  {
    hide Pass, Network.Names, Admitted, Inv, Tried, SameKeeping;
    var pre, r := rs[..|rs| - 1], rs[|rs| - 1];
    var name := w.net.Names().group;
    if pre != [] {
      AccessConverges(w, pre);
      RoundMoves(AfterRounds(w, pre), r);
      assert pre[|pre| - 1] == rs[|rs| - 2];
    } else {
      RoundMoves(w, r);
    }
    UntouchedNext(Admitted(w, name) - ToSet(w.net.status.applied), rs);
  }

  lemma UntouchedNext(u: set<string>, rs: seq<Round>)
    requires rs != []
    ensures Untouched(u, rs) == Untouched(u, rs[..|rs| - 1]) - ToSet(rs[|rs| - 1].spec.cidrs)
    ensures |rs| > 1 ==> Untouched(u, rs[..|rs| - 1]) !! ToSet(rs[|rs| - 2].spec.cidrs)
  {
    var pre := rs[..|rs| - 1];
    assert forall i :: 0 <= i < |pre| ==> pre[i] == rs[i];
    if |rs| > 1 {
      assert pre[|rs| - 2] == rs[|rs| - 2];
    }
  }

  /**
   Exactly when a CIDR that no edit asks for survives: it was admitted and not recorded as
   applied.  A CIDR that a failed pass opened, and that the next edit drops before any pass
   ends well, is such a CIDR: no later pass closes it.
   */
  lemma UnwantedCIDRRemains(w: World, rs: seq<Round>, c: string)
    requires Inv(w) && Succeeds(w, rs) && rs != []
    requires forall i :: 0 <= i < |rs| ==> c !in rs[i].spec.cidrs
    ensures var name := w.net.Names().group;
            c in Admitted(AfterRounds(w, rs), name) <==> c in Admitted(w, name) && c !in w.net.status.applied
  {
    hide Pass, Network.Names, Admitted, Inv, Succeeds, AfterRounds;
    AccessConverges(w, rs);
  }

  /** The group of a new Managed object admits nothing, so its access converges to the list alone. */
  lemma NewObjectAdmitsNothing(w: World)
    requires Initial(w) && w.net.spec.policy != Adopt
    ensures Admitted(w, w.net.Names().group) == {} && w.net.status.applied == []
  {
    hide Network.Names, Open, Discover, ManagedName;
    var name := w.net.Names().group;
    NamesCarryToken(w.net);
    FoundIsNamed(w.cloud, name);
    assert GroupsNamed(w.cloud, name) == {};
  }
}
