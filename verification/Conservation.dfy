/**
 Creation and cleanup cancel out.  Over the whole life of a Managed object, with any call of any
 pass failing, the cloud holds what it held before the object and at most the object's own
 resources; an object that was complete once gives the cloud back exactly as it found it.
 */
module Conservation {
  import opened Faults
  import opened Names
  import opened Rules
  import opened State
  import opened Protocol
  import opened Invariants
  import opened Runs
  import opened Reconcile
  import opened Refinement
  import opened Progress
  import opened Lifecycle
  import opened Isolation
  import opened Access

  function NameOf(names: ResourceNames, k: Kind): string {
    match k case VPCs => names.vpc case Subnets => names.subnet case Groups => names.group
  }

  /** A resource of `c` is in `d` unchanged, ports aside. */
  predicate Intact(c: Cloud, d: Cloud, k: Kind, id: Id) {
    Exists(c, k, id) ==> Exists(d, k, id) && match k
      case VPCs => d.vpcs[id] == c.vpcs[id]
      case Subnets => d.subnets[id].name == c.subnets[id].name && d.subnets[id].vpc == c.subnets[id].vpc
      case Groups => d.groups[id] == c.groups[id]
  }

  predicate New(c: Cloud, d: Cloud, k: Kind, id: Id) {
    Exists(d, k, id) && !Exists(c, k, id)
  }

  /**
   Since the cloud `c` every resource of `c` stayed intact, and a new one is the one on record, or
   carries the object's name while none is on record.  Once `done`, everything was on record, so
   a missing record means that deletion cleared it.
   */
  ghost predicate Tidy(c: Cloud, w: World, name: string, k: Kind, done: bool) {
    var r := Recorded(w.net, k);
    && (r.id != 0 ==> r.managed && !Exists(c, k, r.id))
    && (forall id :: Intact(c, w.cloud, k, id))
    && (forall id :: New(c, w.cloud, k, id) ==> if r.id != 0 then id == r.id else !done && NameIn(w.cloud, k, id) == name)
    && (done && r.id == 0 ==> w.net.deleting)
  }

  ghost predicate AllTidy(c: Cloud, w: World, names: ResourceNames, done: bool) {
    && Tidy(c, w, names.vpc, VPCs, done) && Tidy(c, w, names.subnet, Subnets, done) && Tidy(c, w, names.group, Groups, done)
  }

  /** No resource of `c` has a name of the object's. */
  ghost predicate NoneOwn(c: Cloud, t: string) {
    forall k, id :: Exists(c, k, id) ==> !OwnName(t, NameIn(c, k, id))
  }

  // ---------------------------------------------------------------- stages that touch one kind

  predicate SameKind(w: World, v: World, k: Kind) {
    && Recorded(v.net, k) == Recorded(w.net, k) && (w.net.deleting ==> v.net.deleting)
    && match k
       case VPCs => v.cloud.vpcs == w.cloud.vpcs
       case Subnets => v.cloud.subnets == w.cloud.subnets
       case Groups => v.cloud.groups == w.cloud.groups
  }

  lemma TidySame(c: Cloud, w: World, v: World, name: string, k: Kind, done: bool)
    requires Tidy(c, w, name, k, done) && SameKind(w, v, k)
    ensures Tidy(c, v, name, k, done)
  {
    assert forall id :: Intact(c, w.cloud, k, id) ==> Intact(c, v.cloud, k, id);
    assert forall id :: New(c, v.cloud, k, id) ==> New(c, w.cloud, k, id) && NameIn(v.cloud, k, id) == NameIn(w.cloud, k, id);
  }

  lemma AllTidySame(c: Cloud, w: World, v: World, names: ResourceNames, done: bool)
    requires AllTidy(c, w, names, done) && SameKind(w, v, VPCs) && SameKind(w, v, Subnets) && SameKind(w, v, Groups)
    ensures AllTidy(c, v, names, done)
  {
    hide Tidy, SameKind;
    TidySame(c, w, v, names.vpc, VPCs, done);
    TidySame(c, w, v, names.subnet, Subnets, done);
    TidySame(c, w, v, names.group, Groups, done);
  }

  /** Effects that leave the cloud and the records alone. */
  lemma TidyPaperwork(c: Cloud, w: World, e: Effect, names: ResourceNames, done: bool)
    requires AllTidy(c, w, names, done) && Paperwork(e)
    ensures AllTidy(c, Perform(w, e), names, done)
  {
    hide AllTidy;
    AllTidySame(c, w, Perform(w, e), names, done);
  }

  lemma TidyFail(c: Cloud, w: World, f: Fault, names: ResourceNames, done: bool)
    requires AllTidy(c, w, names, done)
    ensures AllTidy(c, Fail(w, f).w, names, done)
  {
    hide AllTidy, Perform;
    TidyPaperwork(c, w, LowerReady, names, done);
  }

  lemma TidyWrite(c: Cloud, w: World, e: Effect, s: Site, f: Fault, names: ResourceNames, done: bool)
    requires AllTidy(c, w, names, done) && AllTidy(c, Perform(w, e), names, done)
    ensures AllTidy(c, Write(w, e, s, f).w, names, done)
  {
    hide AllTidy, Perform;
  }

  // ---------------------------------------------------------------- VPCs

  /** Nothing has the name: the new VPC is the only new one. */
  lemma TidyCreateVPC(c: Cloud, w: World, name: string)
    requires Tidy(c, w, name, VPCs, false) && w.cloud.Valid() && w.net.status.vpc.id == 0
    ensures Tidy(c, Perform(w, Effect.CreateVPC(name)), name, VPCs, false)
  {
    hide GoodRules;
    var v := Perform(w, Effect.CreateVPC(name));
    assert forall id :: Intact(c, w.cloud, VPCs, id) ==> Intact(c, v.cloud, VPCs, id);
    assert forall id :: New(c, v.cloud, VPCs, id) ==> New(c, w.cloud, VPCs, id) || id == w.cloud.next;
  }

  /** The only VPC of the name is on record. */
  lemma TidyRecordVPC(c: Cloud, w: World, name: string, t: string, id: Id)
    requires Tidy(c, w, name, VPCs, false) && w.cloud.Valid() && w.net.status.vpc.id == 0
    requires NoneOwn(c, t) && OwnName(t, name) && VPCsNamed(w.cloud, name) == {id}
    ensures Tidy(c, Perform(w, RecordVPC(id)), name, VPCs, false)
  {
    hide GoodRules, OwnName;
    assert id in VPCsNamed(w.cloud, name);
    assert Intact(c, w.cloud, VPCs, id);
    assert !Exists(c, VPCs, id);
    forall i | New(c, w.cloud, VPCs, i) ensures i == id {
      assert i in VPCsNamed(w.cloud, name);
    }
    var v := Perform(w, RecordVPC(id));
    assert forall i :: Intact(c, w.cloud, VPCs, i) ==> Intact(c, v.cloud, VPCs, i);
    assert forall i :: New(c, v.cloud, VPCs, i) ==> New(c, w.cloud, VPCs, i);
  }

  lemma TidyVPCStage(c: Cloud, w: World, names: ResourceNames, t: string, f: Fault, done: bool)
    requires AllTidy(c, w, names, done) && w.cloud.Valid() && !w.net.deleting
    requires NoneOwn(c, t) && OwnName(t, names.vpc)
    ensures AllTidy(c, VPCStage(w, names.vpc, f).w, names, done)
  {
    hide AllTidy, Fail, Write, Perform, Find, OwnName, GoodRules;
    TidyFail(c, w, f, names, done);
    if w.net.status.vpc.id == 0 && !Hit(f, ReadVPC) {
      NotDone(c, w, names, done);
      FindIs(VPCsNamed(w.cloud, names.vpc));
      match Find(VPCsNamed(w.cloud, names.vpc))
      case Many =>
      case One(i) => VPCRecorded(c, w, names, t, i, f);
      case Missing =>
        VPCCreated(c, w, names);
        var w1 := Perform(w, Effect.CreateVPC(names.vpc));
        CreateVPCIs(w, names.vpc);
        TidyFail(c, w1, f, names, done);
        VPCRecorded(c, w1, names, t, w.cloud.next, f);
    }
  }

  lemma CreateVPCIs(w: World, name: string)
    ensures var c := w.cloud;
            Perform(w, Effect.CreateVPC(name)) == w.(cloud := c.(vpcs := c.vpcs[c.next := name], next := c.next + 1))
  {
  }

  lemma VPCCreated(c: Cloud, w: World, names: ResourceNames)
    requires AllTidy(c, w, names, false) && w.cloud.Valid() && w.net.status.vpc.id == 0 && VPCsNamed(w.cloud, names.vpc) == {}
    ensures var v := Perform(w, Effect.CreateVPC(names.vpc));
            && AllTidy(c, v, names, false) && v.cloud.Valid() && v.net == w.net && VPCsNamed(v.cloud, names.vpc) == {w.cloud.next}
  {
    hide Tidy, GoodRules;
    var v := Perform(w, Effect.CreateVPC(names.vpc));
    TidyCreateVPC(c, w, names.vpc);
    TidySame(c, w, v, names.subnet, Subnets, false);
    TidySame(c, w, v, names.group, Groups, false);
    ValidWithVPC(w, names.vpc);
    assert VPCsNamed(v.cloud, names.vpc) == {w.cloud.next} by {
      assert forall i :: i in w.cloud.vpcs && w.cloud.vpcs[i] == names.vpc ==> i in VPCsNamed(w.cloud, names.vpc);
    }
  }

  lemma ValidWithVPC(w: World, name: string)
    requires w.cloud.Valid()
    ensures Perform(w, Effect.CreateVPC(name)).cloud.Valid()
  {
  }

  lemma VPCRecorded(c: Cloud, w: World, names: ResourceNames, t: string, id: Id, f: Fault)
    requires AllTidy(c, w, names, false) && w.cloud.Valid() && w.net.status.vpc.id == 0
    requires NoneOwn(c, t) && OwnName(t, names.vpc) && VPCsNamed(w.cloud, names.vpc) == {id}
    ensures AllTidy(c, Write(w, RecordVPC(id), PatchVPC, f).w, names, false)
  {
    hide Tidy, OwnName, GoodRules, NoneOwn;
    var v := Perform(w, RecordVPC(id));
    TidyRecordVPC(c, w, names.vpc, t, id);
    TidySame(c, w, v, names.subnet, Subnets, false);
    TidySame(c, w, v, names.group, Groups, false);
  }

  /** While a kind is not on record in a live object, not everything was ever on record. */
  lemma NotDone(c: Cloud, w: World, names: ResourceNames, done: bool)
    requires AllTidy(c, w, names, done) && !w.net.deleting && !w.net.AllRecorded()
    ensures !done
  {
  }

  lemma FindIs(ids: set<Id>)
    ensures match Find(ids) case Missing => ids == {} case One(i) => ids == {i} case Many => true
  {
  }

  // ---------------------------------------------------------------- subnets

  lemma TidyCreateSubnet(c: Cloud, w: World, name: string)
    requires Tidy(c, w, name, Subnets, false) && w.cloud.Valid() && w.net.status.subnet.id == 0
    ensures Tidy(c, Perform(w, Effect.CreateSubnet(name)), name, Subnets, false)
  {
    hide GoodRules;
    var v := Perform(w, Effect.CreateSubnet(name));
    assert forall id :: Intact(c, w.cloud, Subnets, id) ==> Intact(c, v.cloud, Subnets, id);
    assert forall id :: New(c, v.cloud, Subnets, id) ==> New(c, w.cloud, Subnets, id) || id == w.cloud.next;
  }

  /** All new subnets lie in the recorded VPC, so the only one of the name there is the only one. */
  lemma TidyRecordSubnet(c: Cloud, w: World, name: string, t: string, id: Id)
    requires Tidy(c, w, name, Subnets, false) && w.cloud.Valid() && w.net.status.subnet.id == 0
    requires !w.net.deleting && SubnetsInPlace(t, w)
    requires NoneOwn(c, t) && OwnName(t, name) && SubnetsNamed(w.cloud, w.net.status.vpc.id, name) == {id}
    ensures Tidy(c, Perform(w, RecordSubnet(id)), name, Subnets, false)
  {
    hide GoodRules, OwnName;
    var named := SubnetsNamed(w.cloud, w.net.status.vpc.id, name);
    assert id in named;
    assert Intact(c, w.cloud, Subnets, id);
    assert !Exists(c, Subnets, id);
    forall i | New(c, w.cloud, Subnets, i) ensures i == id {
      assert i in named;
    }
    var v := Perform(w, RecordSubnet(id));
    assert forall i :: Intact(c, w.cloud, Subnets, i) ==> Intact(c, v.cloud, Subnets, i);
    assert forall i :: New(c, v.cloud, Subnets, i) ==> New(c, w.cloud, Subnets, i);
  }

  lemma TidySubnetStage(c: Cloud, w: World, names: ResourceNames, t: string, f: Fault, done: bool)
    requires AllTidy(c, w, names, done) && w.cloud.Valid() && !w.net.deleting && SubnetsInPlace(t, w)
    requires NoneOwn(c, t) && OwnName(t, names.subnet) && w.net.status.vpc.id != 0
    ensures AllTidy(c, SubnetStage(w, names.subnet, f).w, names, done)
  {
    hide AllTidy, Fail, Write, Perform, Find, OwnName, GoodRules, SubnetsInPlace;
    TidyFail(c, w, f, names, done);
    if w.net.status.subnet.id == 0 && !Hit(f, ReadSubnet) {
      NotDone(c, w, names, done);
      var named := SubnetsNamed(w.cloud, w.net.status.vpc.id, names.subnet);
      FindIs(named);
      match Find(named)
      case Many =>
      case One(i) => SubnetRecorded(c, w, names, t, i, f);
      case Missing =>
        SubnetCreated(c, w, names, t);
        var w1 := Perform(w, Effect.CreateSubnet(names.subnet));
        CreateSubnetIs(w, names.subnet);
        TidyFail(c, w1, f, names, done);
        SubnetRecorded(c, w1, names, t, w.cloud.next, f);
    }
  }

  lemma CreateSubnetIs(w: World, name: string)
    ensures var c := w.cloud;
            Perform(w, Effect.CreateSubnet(name)) ==
            w.(cloud := c.(subnets := c.subnets[c.next := Subnet(name, w.net.status.vpc.id, [])], next := c.next + 1))
  {
  }

  lemma SubnetCreated(c: Cloud, w: World, names: ResourceNames, t: string)
    requires AllTidy(c, w, names, false) && w.cloud.Valid() && w.net.status.subnet.id == 0 && SubnetsInPlace(t, w)
    requires w.net.status.vpc.id != 0 && SubnetsNamed(w.cloud, w.net.status.vpc.id, names.subnet) == {}
    ensures var v := Perform(w, Effect.CreateSubnet(names.subnet));
            && AllTidy(c, v, names, false) && v.cloud.Valid() && v.net == w.net && SubnetsInPlace(t, v)
            && SubnetsNamed(v.cloud, w.net.status.vpc.id, names.subnet) == {w.cloud.next}
  {
    hide Tidy, GoodRules, OwnName;
    var v := Perform(w, Effect.CreateSubnet(names.subnet));
    TidyCreateSubnet(c, w, names.subnet);
    TidySame(c, w, v, names.vpc, VPCs, false);
    TidySame(c, w, v, names.group, Groups, false);
    ValidWithSubnet(w, names.subnet);
    var vpc := w.net.status.vpc.id;
    assert SubnetsNamed(v.cloud, vpc, names.subnet) == {w.cloud.next} by {
      assert forall i :: i in w.cloud.subnets && w.cloud.subnets[i].vpc == vpc && w.cloud.subnets[i].name == names.subnet ==>
                           i in SubnetsNamed(w.cloud, vpc, names.subnet);
    }
  }

  lemma ValidWithSubnet(w: World, name: string)
    requires w.cloud.Valid()
    ensures Perform(w, Effect.CreateSubnet(name)).cloud.Valid()
  {
  }

  lemma SubnetRecorded(c: Cloud, w: World, names: ResourceNames, t: string, id: Id, f: Fault)
    requires AllTidy(c, w, names, false) && w.cloud.Valid() && w.net.status.subnet.id == 0 && !w.net.deleting && SubnetsInPlace(t, w)
    requires NoneOwn(c, t) && OwnName(t, names.subnet) && SubnetsNamed(w.cloud, w.net.status.vpc.id, names.subnet) == {id}
    ensures AllTidy(c, Write(w, RecordSubnet(id), PatchSubnet, f).w, names, false)
  {
    hide Tidy, OwnName, GoodRules, NoneOwn, SubnetsInPlace;
    var v := Perform(w, RecordSubnet(id));
    TidyRecordSubnet(c, w, names.subnet, t, id);
    TidySame(c, w, v, names.vpc, VPCs, false);
    TidySame(c, w, v, names.group, Groups, false);
  }

  // ---------------------------------------------------------------- groups

  lemma TidyCreateGroup(c: Cloud, w: World, name: string)
    requires Tidy(c, w, name, Groups, false) && w.cloud.Valid() && w.net.status.group.id == 0
    ensures Tidy(c, Perform(w, Effect.CreateGroup(name)), name, Groups, false)
  {
    hide GoodRules;
    var v := Perform(w, Effect.CreateGroup(name));
    assert forall id :: Intact(c, w.cloud, Groups, id) ==> Intact(c, v.cloud, Groups, id);
    assert forall id :: New(c, v.cloud, Groups, id) ==> New(c, w.cloud, Groups, id) || id == w.cloud.next;
  }

  lemma TidyRecordGroup(c: Cloud, w: World, name: string, t: string, id: Id)
    requires Tidy(c, w, name, Groups, false) && w.cloud.Valid() && w.net.status.group.id == 0
    requires NoneOwn(c, t) && OwnName(t, name) && GroupsNamed(w.cloud, name) == {id}
    ensures Tidy(c, Perform(w, RecordGroup(id)), name, Groups, false)
  {
    hide GoodRules, OwnName;
    assert id in GroupsNamed(w.cloud, name);
    assert Intact(c, w.cloud, Groups, id);
    assert !Exists(c, Groups, id);
    forall i | New(c, w.cloud, Groups, i) ensures i == id {
      assert i in GroupsNamed(w.cloud, name);
    }
    var v := Perform(w, RecordGroup(id));
    assert forall i :: Intact(c, w.cloud, Groups, i) ==> Intact(c, v.cloud, Groups, i);
    assert forall i :: New(c, v.cloud, Groups, i) ==> New(c, w.cloud, Groups, i);
  }

  lemma TidyGroupStage(c: Cloud, w: World, names: ResourceNames, t: string, f: Fault, done: bool)
    requires AllTidy(c, w, names, done) && w.cloud.Valid() && !w.net.deleting
    requires NoneOwn(c, t) && OwnName(t, names.group)
    ensures AllTidy(c, GroupStage(w, names.group, f).w, names, done)
  {
    hide AllTidy, Fail, Write, Perform, Find, OwnName, GoodRules;
    TidyFail(c, w, f, names, done);
    if w.net.status.group.id == 0 && !Hit(f, ReadGroup) {
      NotDone(c, w, names, done);
      FindIs(GroupsNamed(w.cloud, names.group));
      match Find(GroupsNamed(w.cloud, names.group))
      case Many =>
      case One(i) => GroupRecorded(c, w, names, t, i, f);
      case Missing =>
        GroupCreated(c, w, names, t);
        var w1 := Perform(w, Effect.CreateGroup(names.group));
        CreateGroupIs(w, names.group);
        TidyFail(c, w1, f, names, done);
        GroupRecorded(c, w1, names, t, w.cloud.next, f);
    }
  }

  lemma CreateGroupIs(w: World, name: string)
    ensures var c := w.cloud;
            Perform(w, Effect.CreateGroup(name)) == w.(cloud := c.(groups := c.groups[c.next := Group(name, [])], next := c.next + 1))
  {
  }

  lemma GroupCreated(c: Cloud, w: World, names: ResourceNames, t: string)
    requires AllTidy(c, w, names, false) && w.cloud.Valid() && w.net.status.group.id == 0 && GroupsNamed(w.cloud, names.group) == {}
    requires OwnName(t, names.group)
    ensures var v := Perform(w, Effect.CreateGroup(names.group));
            && AllTidy(c, v, names, false) && v.cloud.Valid() && v.net == w.net && GroupsNamed(v.cloud, names.group) == {w.cloud.next}
  {
    hide Tidy, GoodRules;
    var v := Perform(w, Effect.CreateGroup(names.group));
    TidyCreateGroup(c, w, names.group);
    TidySame(c, w, v, names.vpc, VPCs, false);
    TidySame(c, w, v, names.subnet, Subnets, false);
    ValidWithGroup(w, names.group);
    assert GroupsNamed(v.cloud, names.group) == {w.cloud.next} by {
      assert forall i :: i in w.cloud.groups && w.cloud.groups[i].name == names.group ==> i in GroupsNamed(w.cloud, names.group);
    }
  }

  lemma ValidWithGroup(w: World, name: string)
    requires w.cloud.Valid() && name != ""
    ensures Perform(w, Effect.CreateGroup(name)).cloud.Valid()
  {
  }

  lemma GroupRecorded(c: Cloud, w: World, names: ResourceNames, t: string, id: Id, f: Fault)
    requires AllTidy(c, w, names, false) && w.cloud.Valid() && w.net.status.group.id == 0
    requires NoneOwn(c, t) && OwnName(t, names.group) && GroupsNamed(w.cloud, names.group) == {id}
    ensures AllTidy(c, Write(w, RecordGroup(id), PatchGroup, f).w, names, false)
  {
    hide Tidy, OwnName, GoodRules, NoneOwn;
    var v := Perform(w, RecordGroup(id));
    TidyRecordGroup(c, w, names.group, t, id);
    TidySame(c, w, v, names.vpc, VPCs, false);
    TidySame(c, w, v, names.subnet, Subnets, false);
  }

  // ---------------------------------------------------------------- rules and passes

  lemma TidyRules(c: Cloud, w: World, rules: seq<CloudRule>, next: Id, names: ResourceNames, done: bool)
    requires AllTidy(c, w, names, done) && w.cloud.Valid() && w.net.status.group.id in w.cloud.groups
    ensures AllTidy(c, Perform(w, EditRules(rules, next)), names, done)
  {
    hide Tidy, GoodRules;
    var v := Perform(w, EditRules(rules, next));
    TidySame(c, w, v, names.vpc, VPCs, done);
    TidySame(c, w, v, names.subnet, Subnets, done);
    TidyGroupRules(c, w, rules, next, names.group, done);
  }

  lemma TidyGroupRules(c: Cloud, w: World, rules: seq<CloudRule>, next: Id, name: string, done: bool)
    requires Tidy(c, w, name, Groups, done) && w.net.status.group.id in w.cloud.groups && w.net.status.group.id != 0
    ensures Tidy(c, Perform(w, EditRules(rules, next)), name, Groups, done)
  {
    var v := Perform(w, EditRules(rules, next));
    assert forall id :: Intact(c, w.cloud, Groups, id) ==> Intact(c, v.cloud, Groups, id);
    assert forall id :: New(c, v.cloud, Groups, id) ==> New(c, w.cloud, Groups, id);
  }

  lemma TidyRuleStage(c: Cloud, w: World, f: Fault, names: ResourceNames, done: bool)
    requires AllTidy(c, w, names, done) && w.cloud.Valid()
    ensures AllTidy(c, RuleStage(w, f).w, names, done)
  {
    hide AllTidy, Fail, Perform, RulesOf, GoodRules;
    TidyFail(c, w, f, names, done);
    if w.net.status.group.id in w.cloud.groups {
      var p := RulesOf(w, f);
      TidyRules(c, w, p.rules, p.next, names, done);
      TidyFail(c, Perform(w, EditRules(p.rules, p.next)), f, names, done);
    }
  }

  lemma TidyReadyStage(c: Cloud, w: World, f: Fault, names: ResourceNames, done: bool)
    requires AllTidy(c, w, names, done)
    ensures AllTidy(c, ReadyStage(w, f).w, names, done)
  {
    hide AllTidy, Perform;
    TidyPaperwork(c, w, MarkReady, names, done);
  }

  lemma TidyOwnGroup(c: Cloud, w: World, names: ResourceNames, t: string, f: Fault, done: bool)
    requires AllTidy(c, w, names, done) && w.cloud.Valid() && !w.net.deleting && NoneOwn(c, t) && OwnName(t, names.group)
    ensures AllTidy(c, OwnGroupStage(w, names.group, f).w, names, done)
  {
    hide AllTidy, GroupStage, RuleStage, OwnName, NoneOwn;
    TidyGroupStage(c, w, names, t, f, done);
    NamedIsNotEmpty(t, names.group);
    if GroupStage(w, names.group, f).Go? {
      GroupStaged(w, names.group, f);
      TidyRuleStage(c, GroupStage(w, names.group, f).w, f, names, done);
    }
  }

  lemma NamedIsNotEmpty(t: string, name: string)
    requires OwnName(t, name)
    ensures name != ""
  {
  }

  lemma TidyResources(c: Cloud, w: World, names: ResourceNames, f: Fault, done: bool)
    requires AllTidy(c, w, names, done) && Inv(w) && Creating(w.net)
    requires NoneOwn(c, ShortToken(w.net.uid)) && Carry(names, ShortToken(w.net.uid))
    ensures AllTidy(c, ResourcesPass(w, names, f).w, names, done)
  {
    hide AllTidy, VPCStage, SubnetStage, OwnGroupStage, ReadyStage, NoneOwn, OwnName, Sound, Once, ReadyMeans;
    var t := ShortToken(w.net.uid);
    InvGives(w);
    TidyVPCStage(c, w, names, t, f, done);
    var s1 := VPCStage(w, names.vpc, f);
    if s1.Stop? { return; }
    var ms := VPCSteps(w, names.vpc, f);
    Keeps(w, ms, s1.w);
    VPCStaged(w, names.vpc, f);
    InvGives(s1.w);
    TidySubnetStage(c, s1.w, names, t, f, done);
    var s2 := SubnetStage(s1.w, names.subnet, f);
    if s2.Stop? { return; }
    SubnetStaged(s1.w, names.subnet, f);
    TidyOwnGroup(c, s2.w, names, t, f, done);
    var s3 := OwnGroupStage(s2.w, names.group, f);
    if s3.Stop? { return; }
    TidyReadyStage(c, s3.w, f, names, done);
  }

  lemma InvGives(w: World)
    requires Inv(w)
    ensures w.cloud.Valid() && SubnetsInPlace(ShortToken(w.net.uid), w) && w.net.uid != ""
    ensures w.net.status.token != "" ==> Tag(w.net) == ShortToken(w.net.uid)
    ensures ShortToken(w.net.Token()) == ShortToken(w.net.uid)
  {
  }

  lemma TidyManaged(c: Cloud, w: World, names: ResourceNames, f: Fault, done: bool)
    requires AllTidy(c, w, names, done) && Inv(w) && Live(w.net) && w.net.spec.Effective() == Managed
    requires NoneOwn(c, ShortToken(w.net.uid)) && Carry(names, ShortToken(w.net.uid))
    ensures AllTidy(c, ManagedPass(w, names, f).w, names, done)
  {
    hide AllTidy, TokenStage, ResourcesPass, NoneOwn, Carry, Inv;
    var s := TokenStage(w, f);
    TokenTidy(c, w, f, names, done);
    InvGives(w);
    if s.Go? {
      var ms := TokenSteps(w, f);
      Keeps(w, ms, s.w);
      TokenStaged(w, f);
      TidyResources(c, s.w, names, f, done);
    }
  }

  lemma TokenTidy(c: Cloud, w: World, f: Fault, names: ResourceNames, done: bool)
    requires AllTidy(c, w, names, done)
    ensures AllTidy(c, TokenStage(w, f).w, names, done)
  {
    hide AllTidy, Perform;
    TidyPaperwork(c, w, TakeToken, names, done);
  }

  lemma TidyLive(c: Cloud, w: World, names: ResourceNames, f: Fault, done: bool)
    requires AllTidy(c, w, names, done) && Inv(w) && Live(w.net) && w.net.spec.Effective() == Managed
    requires NoneOwn(c, ShortToken(w.net.uid)) && Carry(names, ShortToken(w.net.uid))
    ensures AllTidy(c, LivePass(w, names, f).w, names, done)
  {
    hide AllTidy, BindOwner, ManagedPass, NoneOwn, Carry, Inv, Fail, Write, Perform, AdoptPass, ObservePass;
    BindKeeps(w, f);
    var s := BindOwner(w, f);
    AllTidySame(c, w, s.w, names, done);
    if s.Go? {
      var ms := BindSteps(w, f);
      Keeps(w, ms, s.w);
      TidyFail(c, s.w, f, names, done);
      TidyPaperwork(c, s.w, Expire, names, done);
      TidyWrite(c, s.w, Expire, ExpireNetwork, f, names, done);
      TidyManaged(c, s.w, names, f, done);
    }
  }

  /** A delete and the clear after it. */
  lemma TidyDelete(c: Cloud, w: World, names: ResourceNames, done: bool)
    requires AllTidy(c, w, names, done) && w.net.deleting && ToDelete(w.net) > 0 && Sound(w)
    ensures var d := Perform(w, NextDelete(w.net));
            AllTidy(c, d, names, done) && AllTidy(c, Perform(d, NextClear(w.net)), names, done)
  {
    hide Tidy, Sound;
    var d := Perform(w, NextDelete(w.net));
    var v := Perform(d, NextClear(w.net));
    var k := NextKind(w.net);
    OneKindDeleted(c, w, NameOf(names, k), done);
    OthersKept(w);
    forall j | j != k ensures Tidy(c, d, NameOf(names, j), j, done) && Tidy(c, v, NameOf(names, j), j, done) {
      assert Tidy(c, w, NameOf(names, j), j, done);
      TidySame(c, w, d, NameOf(names, j), j, done);
      TidySame(c, w, v, NameOf(names, j), j, done);
    }
    assert forall j :: Tidy(c, d, NameOf(names, j), j, done) && Tidy(c, v, NameOf(names, j), j, done);
    assert NameOf(names, VPCs) == names.vpc && NameOf(names, Subnets) == names.subnet && NameOf(names, Groups) == names.group;
  }

  function NextKind(n: Network): Kind {
    if n.status.group.managed then Groups else if n.status.subnet.managed then Subnets else VPCs
  }

  lemma OthersKept(w: World)
    requires ToDelete(w.net) > 0
    ensures var d := Perform(w, NextDelete(w.net));
            forall j :: j != NextKind(w.net) ==> SameKind(w, d, j) && SameKind(w, Perform(d, NextClear(w.net)), j)
  {
  }

  lemma OneKindDeleted(c: Cloud, w: World, name: string, done: bool)
    requires Tidy(c, w, name, NextKind(w.net), done) && w.net.deleting && ToDelete(w.net) > 0 && Sound(w)
    ensures var d := Perform(w, NextDelete(w.net));
            && Tidy(c, d, name, NextKind(w.net), done) && Tidy(c, Perform(d, NextClear(w.net)), name, NextKind(w.net), done)
  {
    var k := NextKind(w.net);
    var d := Perform(w, NextDelete(w.net));
    var v := Perform(d, NextClear(w.net));
    DeletedIs(w);
    assert forall id :: Intact(c, w.cloud, k, id) && id != Recorded(w.net, k).id ==> Intact(c, d.cloud, k, id);
    assert forall id :: New(c, d.cloud, k, id) ==> New(c, w.cloud, k, id);
    assert forall id :: !New(c, d.cloud, k, id);
  }

  lemma DeletedIs(w: World)
    requires Sound(w) && ToDelete(w.net) > 0
    ensures var k, d := NextKind(w.net), Perform(w, NextDelete(w.net));
            var v := Perform(d, NextClear(w.net));
            && Recorded(w.net, k).id != 0 && d.net == w.net && v.cloud == d.cloud && Recorded(v.net, k) == NO_RESOURCE
            && v.net.deleting == w.net.deleting
            && !Exists(d.cloud, k, Recorded(w.net, k).id)
            && forall id :: id != Recorded(w.net, k).id ==>
                 Intact(w.cloud, d.cloud, k, id) && (Exists(d.cloud, k, id) ==> Exists(w.cloud, k, id))
  {
  }

  lemma TidyDeletePass(c: Cloud, w: World, f: Fault, names: ResourceNames, done: bool)
    requires AllTidy(c, w, names, done) && Sound(w) && w.net.deleting
    ensures AllTidy(c, Pass(w, f).w, names, done)
  {
    hide AllTidy, Pass, Perform, Sound, Enabled, Cleared;
    DeletePassOutcomes(w, f);
    TidyPaperwork(c, w, LowerReady, names, done);
    TidyPaperwork(c, w, Release, names, done);
    if ToDelete(w.net) > 0 {
      TidyDelete(c, w, names, done);
    }
  }

  /** One pass of a Managed object, cut at any call. */
  lemma TidyPass(c: Cloud, w: World, f: Fault, names: ResourceNames, done: bool)
    requires AllTidy(c, w, names, done) && Inv(w) && w.net.spec.Effective() == Managed
    requires NoneOwn(c, ShortToken(w.net.uid)) && names == w.net.Names()
    ensures AllTidy(c, Pass(w, f).w, names, done)
  {
    hide AllTidy, NoneOwn, LivePass, DeletePass, Network.Names, Perform, Once, ReadyMeans, Sound, Carry;
    InvGives(w);
    NamesCarryToken(w.net);
    if w.net.deleting {
      TidyDeletePass(c, w, f, names, done);
    } else if w.net.finalizer {
      TidyLive(c, w, names, f, done);
    } else {
      TidyPaperwork(c, w, AddFinalizer, names, done);
    }
  }

  // ---------------------------------------------------------------- lives

  /** Only ports changed. */
  predicate PortsOnly(c: Cloud, d: Cloud) {
    && d.vpcs == c.vpcs && d.groups == c.groups && d.subnets.Keys == c.subnets.Keys
    && forall i :: i in c.subnets ==> d.subnets[i].name == c.subnets[i].name && d.subnets[i].vpc == c.subnets[i].vpc
  }

  /** An edit that keeps the policy and the names; anything else in the spec may change. */
  predicate SameNaming(s: Spec, t: Spec) {
    t.Effective() == Managed && t.vpcName == s.vpcName && t.subnetName == s.subnetName && t.groupName == s.groupName
  }

  ghost predicate CalmTurn(w: World, t: Turn) {
    t.Other? ==>
      && (t.move.Edit? ==> SameNaming(w.net.spec, t.move.spec))
      && (t.move.Outside? ==> PortsOnly(w.cloud, t.move.cloud))
  }

  /** A life with policy and names fixed in which others change ports, not resources. */
  ghost predicate CalmLife(w: World, ts: seq<Turn>) {
    ts == [] || (CalmLife(w, ts[..|ts| - 1]) && CalmTurn(Life(w, ts[..|ts| - 1]), ts[|ts| - 1]))
  }

  lemma TidyMove(c: Cloud, w: World, m: Move, names: ResourceNames, done: bool)
    requires AllTidy(c, w, names, done) && !m.Do? && (m.Outside? ==> PortsOnly(w.cloud, m.cloud))
    ensures AllTidy(c, After(w, m), names, done)
  {
    hide Tidy;
    var v := After(w, m);
    if m.Outside? {
      TidySame(c, w, v, names.vpc, VPCs, done);
      TidyPorts(c, w, v, names.subnet, done);
      TidySame(c, w, v, names.group, Groups, done);
    } else {
      AllTidySame(c, w, v, names, done);
    }
  }

  lemma TidyPorts(c: Cloud, w: World, v: World, name: string, done: bool)
    requires Tidy(c, w, name, Subnets, done) && v.net == w.net && PortsOnly(w.cloud, v.cloud)
    ensures Tidy(c, v, name, Subnets, done)
  {
    assert forall id :: id in v.cloud.subnets <==> id in w.cloud.subnets;
    assert forall id :: Intact(c, w.cloud, Subnets, id) ==> Intact(c, v.cloud, Subnets, id);
    assert forall id :: New(c, v.cloud, Subnets, id) ==> New(c, w.cloud, Subnets, id);
  }

  /** What a calm life of `u` never changes. */
  ghost predicate SameManaged(u: World, v: World) {
    Inv(v) && v.net.uid == u.net.uid && v.net.cluster == u.net.cluster && SameNaming(u.net.spec, v.net.spec)
  }

  lemma SameManagedNames(u: World, v: World)
    requires Inv(u) && SameManaged(u, v)
    ensures v.net.Names() == u.net.Names()
  {
    hide ManagedName, ShortToken, Once, ReadyMeans, Cloud.Valid;
  }

  lemma SameManagedTurn(u: World, v: World, t: Turn)
    requires SameManaged(u, v) && CalmTurn(v, t) && (t.Other? ==> !t.move.Do? && Legal(v, t.move))
    ensures SameManaged(u, AfterTurn(v, t))
  {
    hide Pass, Inv, Legal;
    match t
    case Reconcile(f) =>
      PassSelf(v, f);
    case Other(m) =>
      InvStep(v, m);
  }

  lemma {:induction false} LifeIsTidy(c: Cloud, u: World, ts: seq<Turn>, done: bool)
    requires Inv(u) && u.net.spec.Effective() == Managed && NoneOwn(c, ShortToken(u.net.uid))
    requires LegalLife(u, ts) && CalmLife(u, ts) && AllTidy(c, u, u.net.Names(), done)
    ensures SameManaged(u, Life(u, ts)) && AllTidy(c, Life(u, ts), u.net.Names(), done)
  {
    hide Pass, AllTidy, NoneOwn, Inv, Legal, Network.Names, After;
    if ts != [] {
      var pre, t := ts[..|ts| - 1], ts[|ts| - 1];
      LifeIsTidy(c, u, pre, done);
      var v := Life(u, pre);
      SameManagedTurn(u, v, t);
      SameManagedNames(u, v);
      match t
      case Reconcile(f) => TidyPass(c, v, f, u.net.Names(), done);
      case Other(m) => TidyMove(c, v, m, u.net.Names(), done);
    }
  }

  lemma StartsTidy(w: World)
    requires Initial(w)
    ensures AllTidy(w.cloud, w, w.net.Names(), false) && NoneOwn(w.cloud, ShortToken(w.net.uid))
  {
    hide Network.Names, OwnName;
  }

  /**
   A Managed object never touches what was there before it, and what it adds is its own: in every
   state of a calm life, whatever failed, each resource of the initial cloud is intact, and each
   new one is on record as managed or carries the object's managed name.
   */
  lemma NothingElseChanges(w: World, ts: seq<Turn>, k: Kind, id: Id)
    requires Initial(w) && w.net.spec.Effective() == Managed && LegalLife(w, ts) && CalmLife(w, ts)
    ensures var v := Life(w, ts);
            && Intact(w.cloud, v.cloud, k, id)
            && (New(w.cloud, v.cloud, k, id) ==> Manages(v.net, k, id) || NameIn(v.cloud, k, id) == NameOf(w.net.Names(), k))
  {
    hide Pass, Inv, Network.Names, Life, LegalLife, CalmLife, Initial;
    InitialInv(w);
    StartsTidy(w);
    LifeIsTidy(w.cloud, w, ts, false);
    assert Tidy(w.cloud, Life(w, ts), NameOf(w.net.Names(), k), k, false);
  }

  /** Every resource the object added to `c` is on record as managed. */
  ghost predicate Accounted(c: Cloud, w: World) {
    forall k, id :: New(c, w.cloud, k, id) ==> Manages(w.net, k, id)
  }

  /** The cloud holds the VPCs, subnets and groups of `c`, ports aside. */
  predicate GivenBack(c: Cloud, d: Cloud) {
    d.vpcs == c.vpcs && d.groups == c.groups && PortsOnly(c, d)
  }

  /** A releasing pass at the end of a calm life of `u`. */
  ghost predicate Releases(u: World, b: seq<Turn>, f: Fault) {
    && LegalLife(u, b) && CalmLife(u, b)
    && Life(u, b).net.finalizer && !Pass(Life(u, b), f).w.net.finalizer
  }

  lemma AccountedIsDone(c: Cloud, u: World, names: ResourceNames)
    requires AllTidy(c, u, names, false) && Sound(u) && (u.net.AllRecorded() || (u.net.deleting && Accounted(c, u)))
    ensures AllTidy(c, u, names, true)
  {
    if !u.net.AllRecorded() {
      DoneKind(c, u, names.vpc, VPCs);
      DoneKind(c, u, names.subnet, Subnets);
      DoneKind(c, u, names.group, Groups);
    }
  }

  lemma DoneKind(c: Cloud, u: World, name: string, k: Kind)
    requires Tidy(c, u, name, k, false) && Sound(u) && u.net.deleting && Accounted(c, u)
    ensures Tidy(c, u, name, k, true)
  {
    assert Recorded(u.net, k).managed ==> Recorded(u.net, k).id != 0;
  }

  /** Released with everything on record or cleared: the cloud is given back. */
  lemma DoneGivesBack(c: Cloud, u: World, b: seq<Turn>, f: Fault)
    requires Inv(u) && u.net.spec.Effective() == Managed && NoneOwn(c, ShortToken(u.net.uid))
    requires AllTidy(c, u, u.net.Names(), true) && Releases(u, b, f)
    ensures GivenBack(c, Pass(Life(u, b), f).w.cloud)
  {
    hide Pass, Inv, Network.Names, Life, LegalLife, CalmLife, AllTidy, NoneOwn, Enabled;
    LifeIsTidy(c, u, b, true);
    var v := Life(u, b);
    InvIsSound(v);
    ReleaseMeans(v, f);
    ReleasedIsEmpty(v);
    SameClouds(c, v, u.net.Names());
  }

  /** A new resource that nothing manages while the object is being deleted. */
  ghost predicate Leftover(c: Cloud, w: World, k: Kind, id: Id) {
    w.net.deleting && New(c, w.cloud, k, id) && !Manages(w.net, k, id)
  }

  lemma LeftoverPass(c: Cloud, w: World, f: Fault, k: Kind, id: Id)
    requires Sound(w) && Leftover(c, w, k, id)
    ensures Leftover(c, Pass(w, f).w, k, id)
  {
    hide Pass, Sound, Enabled, Cleared;
    if !Exists(Pass(w, f).w.cloud, k, id) {
      DeleteGates(w, f, k, id);
    }
    DeletePassOutcomes(w, f);
    if ToDelete(w.net) > 0 {
      ClearsOnly(w, k);
    }
  }

  lemma ClearsOnly(w: World, k: Kind)
    ensures var d := Perform(w, NextDelete(w.net));
            && d.net == w.net && Perform(d, NextClear(w.net)).net.deleting == w.net.deleting
            && var r := Recorded(Perform(d, NextClear(w.net)).net, k); r == Recorded(w.net, k) || !r.managed
  {
  }

  lemma LeftoverMove(c: Cloud, w: World, m: Move, k: Kind, id: Id)
    requires Leftover(c, w, k, id) && !m.Do? && (m.Outside? ==> PortsOnly(w.cloud, m.cloud))
    ensures Leftover(c, After(w, m), k, id)
  {
    assert m.Outside? && k == Subnets ==> id in m.cloud.subnets.Keys;
  }

  lemma {:induction false} LeftoverStays(c: Cloud, u: World, b: seq<Turn>, k: Kind, id: Id)
    requires Inv(u) && LegalLife(u, b) && CalmLife(u, b) && Leftover(c, u, k, id)
    ensures Leftover(c, Life(u, b), k, id)
  {
    hide Pass, Inv, Legal, After, Leftover;
    if b != [] {
      var pre, t := b[..|b| - 1], b[|b| - 1];
      LeftoverStays(c, u, pre, k, id);
      var ms := LifeIsRun(u, pre);
      var v := Life(u, pre);
      InvIsSound(v);
      match t
      case Reconcile(f) => LeftoverPass(c, v, f, k, id);
      case Other(m) => LeftoverMove(c, v, m, k, id);
    }
  }

  /**
   The round trip, exactly: when an object whose deletion was requested is released, whatever calls
   failed before and after, the cloud holds exactly the VPCs, subnets and groups from before the
   object if and only if every resource the object had added was on record at that request.
   */
  lemma CloudIsGivenBack(w: World, a: seq<Turn>, b: seq<Turn>, f: Fault)
    requires Initial(w) && w.net.spec.Effective() == Managed && LegalLife(w, a) && CalmLife(w, a)
    requires Life(w, a).net.deleting && Releases(Life(w, a), b, f)
    ensures GivenBack(w.cloud, Pass(Life(Life(w, a), b), f).w.cloud) <==> Accounted(w.cloud, Life(w, a))
  {
    hide Pass, Inv, Network.Names, Life, LegalLife, CalmLife, Initial, AllTidy, NoneOwn, New, Releases;
    InitialInv(w);
    StartsTidy(w);
    LifeIsTidy(w.cloud, w, a, false);
    var u := Life(w, a);
    SameManagedNames(w, u);
    InvIsSound(u);
    if Accounted(w.cloud, u) {
      AccountedIsDone(w.cloud, u, u.net.Names());
      DoneGivesBack(w.cloud, u, b, f);
    } else {
      var k, id :| New(w.cloud, u.cloud, k, id) && !Manages(u.net, k, id);
      LeftBehind(w.cloud, u, b, f, k, id);
    }
  }

  lemma LeftBehind(c: Cloud, u: World, b: seq<Turn>, f: Fault, k: Kind, id: Id)
    requires Inv(u) && Releases(u, b, f) && Leftover(c, u, k, id)
    ensures !GivenBack(c, Pass(Life(u, b), f).w.cloud)
  {
    hide Pass, Inv, Life, LegalLife, CalmLife;
    LeftoverStays(c, u, b, k, id);
    var ms := LifeIsRun(u, b);
    InvIsSound(Life(u, b));
    LeftoverPass(c, Life(u, b), f, k, id);
    var z := Pass(Life(u, b), f).w.cloud;
    assert k == Subnets ==> id in z.subnets.Keys && id !in c.subnets.Keys;
  }

  /** In particular an object that was complete at some time gives the cloud back. */
  lemma CompleteObjectGivesBack(w: World, a: seq<Turn>, b: seq<Turn>, f: Fault)
    requires Initial(w) && w.net.spec.Effective() == Managed && LegalLife(w, a) && CalmLife(w, a)
    requires Life(w, a).net.AllRecorded() && Releases(Life(w, a), b, f)
    ensures GivenBack(w.cloud, Pass(Life(Life(w, a), b), f).w.cloud)
  {
    hide Pass, Inv, Network.Names, Life, LegalLife, CalmLife, Initial, AllTidy, NoneOwn, Releases;
    InitialInv(w);
    StartsTidy(w);
    LifeIsTidy(w.cloud, w, a, false);
    var u := Life(w, a);
    SameManagedNames(w, u);
    InvIsSound(u);
    AccountedIsDone(w.cloud, u, u.net.Names());
    DoneGivesBack(w.cloud, u, b, f);
  }

  lemma ReleasedIsEmpty(v: World)
    requires Enabled(v, Release) && v.net.spec.Effective() == Managed
    ensures v.net.NothingManaged() && Perform(v, Release).cloud == v.cloud
  {
  }

  lemma SameClouds(c: Cloud, v: World, names: ResourceNames)
    requires AllTidy(c, v, names, true) && v.net.NothingManaged()
    ensures GivenBack(c, v.cloud)
  {
    forall k, id ensures Intact(c, v.cloud, k, id) && !New(c, v.cloud, k, id) {
      assert Tidy(c, v, NameOf(names, k), k, true);
    }
    forall id ensures (id in v.cloud.vpcs <==> id in c.vpcs) && (id in c.vpcs ==> v.cloud.vpcs[id] == c.vpcs[id]) {
      assert Intact(c, v.cloud, VPCs, id) && !New(c, v.cloud, VPCs, id);
    }
    forall id ensures (id in v.cloud.groups <==> id in c.groups) && (id in c.groups ==> v.cloud.groups[id] == c.groups[id]) {
      assert Intact(c, v.cloud, Groups, id) && !New(c, v.cloud, Groups, id);
    }
    forall id ensures (id in v.cloud.subnets <==> id in c.subnets)
      && (id in c.subnets ==> v.cloud.subnets[id].name == c.subnets[id].name && v.cloud.subnets[id].vpc == c.subnets[id].vpc)
    {
      assert Intact(c, v.cloud, Subnets, id) && !New(c, v.cloud, Subnets, id);
    }
  }
}
