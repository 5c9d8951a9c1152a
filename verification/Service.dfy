/**
 The cloud service the controller calls: look up or create by recorded ID or by managed name,
 reconcile rules, count ports, delete what may already be gone.
 */
module Service {
  import opened Faults
  import opened Rules
  import opened State
  import opened Reconcile

  /** A read answers with the resource, says that it is gone, or fails. */
  datatype Answer = Got(resource: Resource) | NotFound | Broken

  function Answered(r: Option<Resource>, broken: bool): Answer {
    if broken then Broken else if r.Some? then Got(r.value) else NotFound
  }

  // ---------------------------------------------------------------- security groups, specified

  /** Look up or create the group, then reconcile its rules. */
  ghost function EnsureSecurityGroupCall(c: Cloud, id: Id, name: string, wanted: seq<Rule>, obsolete: seq<Rule>, read: Site, f: Fault): Call {
    if Hit(f, read) then Call(c, None)
    else if id != 0 then
      if id in c.groups then RulesCall(c, id, wanted, obsolete, f) else Call(c, None)
    else match Find(GroupsNamed(c, name))
      case Many => Call(c, None)
      case One(i) => if i in c.groups then RulesCall(c, i, wanted, obsolete, f) else Call(c, None)
      case Missing =>
        var created := c.(groups := c.groups[c.next := Group(name, [])], next := c.next + 1);
        if Hit(f, Site.CreateGroup) then Call(if f.took then created else c, None)
        else RulesCall(created, c.next, wanted, obsolete, f)
  }

  function RulesCall(c: Cloud, id: Id, wanted: seq<Rule>, obsolete: seq<Rule>, f: Fault): Call
    requires id in c.groups
  {
    var group := c.groups[id];
    var p := ReconcileRules(group.name, group.rules, wanted, obsolete, c.next, f);
    Call(c.(groups := c.groups[id := group.(rules := p.rules)], next := p.next),
         if p.ok then Some(Resource(id, group.name)) else None)
  }

  /** Without rules the call only looks up or creates. */
  lemma NoRulesNoChange(c: Cloud, id: Id, f: Fault)
    requires id in c.groups
    ensures RulesCall(c, id, [], [], f) == Call(c, Some(Resource(id, c.groups[id].name)))
  {
    assert c.groups[id := c.groups[id].(rules := c.groups[id].rules)] == c.groups;
    assert c.groups[id].rules + [] == c.groups[id].rules;
  }

  lemma LookupOnly(c: Cloud, id: Id, name: string, f: Fault)
    ensures EnsureSecurityGroupCall(c, id, name, [], [], ReadGroup, f) == EnsureGroupCall(c, id, name, f)
  {
    hide RulesCall;
    if id in c.groups {
      NoRulesNoChange(c, id, f);
    }
    var found := Find(GroupsNamed(c, name));
    FoundIsNamed(c, name);
    if found.One? {
      NoRulesNoChange(c, found.id, f);
    }
    NoRulesNoChange(c.(groups := c.groups[c.next := Group(name, [])], next := c.next + 1), c.next, f);
  }

  /** With a recorded group the call is the rule pass. */
  lemma RulesOnly(w: World, name: string, f: Fault)
    requires w.net.status.group.id != 0
    ensures var s, spec := w.net.status, w.net.spec;
            var call := EnsureSecurityGroupCall(w.cloud, s.group.id, name, Wanted(s.group.id, spec.cidrs, spec.cni),
                                                Obsolete(s.applied, spec.cidrs), ReadRules, f);
            var w1 := w.(cloud := call.cloud);
            RuleStage(w, f) == if call.result.Some? then Go(w1) else Fail(w1, f)
  {
    hide ReconcileRules, Wanted, Obsolete, Find;
  }

  /** How many have the name decides what a lookup finds. */
  lemma FindByCount(ids: set<Id>)
    ensures |ids| > 1 ==> Find(ids) == Many
    ensures |ids| == 0 ==> Find(ids) == Missing
    ensures forall i :: i in ids && |ids| == 1 ==> Find(ids) == One(i)
  {
    if i :| i in ids && |ids| == 1 {
      assert |ids - {i}| == 0;
      assert ids == {i};
    }
  }

  // The name a call reports is the name the cloud holds.

  lemma VPCNameReported(c: Cloud, id: Id, name: string, f: Fault)
    ensures var call := EnsureVPCCall(c, id, name, f);
            call.result.Some? ==> GetVPCCall(call.cloud, call.result.value.id) == call.result
  {
  }

  lemma SubnetNameReported(c: Cloud, id: Id, vpc: Id, name: string, f: Fault)
    ensures var call := EnsureSubnetCall(c, id, vpc, name, f);
            call.result.Some? ==> GetSubnetCall(call.cloud, call.result.value.id) == call.result
  {
  }

  lemma GroupNameReported(c: Cloud, id: Id, name: string, f: Fault)
    ensures var call := EnsureGroupCall(c, id, name, f);
            call.result.Some? ==> GetGroupCall(call.cloud, call.result.value.id) == call.result
  {
  }

  // ---------------------------------------------------------------- the service

  class TCloudService {
    var vpcs: map<Id, string>
    var subnets: map<Id, Subnet>
    var groups: map<Id, Group>
    var next: Id

    function Snapshot(): Cloud
      reads this
    {
      Cloud(vpcs, subnets, groups, next)
    }

    constructor (c: Cloud)
      ensures Snapshot() == c
    {
      vpcs, subnets, groups, next := c.vpcs, c.subnets, c.groups, c.next;
    }

    method GetVPC(id: Id, s: Site, f: Fault) returns (r: Answer)
      ensures r == Answered(GetVPCCall(Snapshot(), id), Hit(f, s))
    {
      if Hit(f, s) {
        return Broken;
      }
      return if id in vpcs then Got(Resource(id, vpcs[id])) else NotFound;
    }

    method GetSubnet(id: Id, s: Site, f: Fault) returns (r: Answer)
      ensures r == Answered(GetSubnetCall(Snapshot(), id), Hit(f, s))
    {
      if Hit(f, s) {
        return Broken;
      }
      return if id in subnets then Got(Resource(id, subnets[id].name)) else NotFound;
    }

    method GetSecurityGroup(id: Id, s: Site, f: Fault) returns (r: Answer)
      ensures r == Answered(GetGroupCall(Snapshot(), id), Hit(f, s))
    {
      if Hit(f, s) {
        return Broken;
      }
      return if id in groups then Got(Resource(id, groups[id].name)) else NotFound;
    }

    method EnsureVPC(id: Id, name: string, f: Fault) returns (r: Option<Resource>)
      modifies this
      ensures Call(Snapshot(), r) == EnsureVPCCall(old(Snapshot()), id, name, f)
    {
      if id != 0 {
        var got := GetVPC(id, ReadVPC, f);
        return if got.Got? then Some(got.resource) else None;
      }
      if Hit(f, ReadVPC) {
        return None;
      }
      var list := set i | i in vpcs && vpcs[i] == name;
      FindByCount(list);
      assert list == VPCsNamed(Snapshot(), name);
      if |list| > 1 {
        return None;
      }
      if |list| == 1 {
        var i :| i in list;
        return Some(Resource(i, vpcs[i]));
      }
      if !Hit(f, Site.CreateVPC) || f.took {
        vpcs, next := vpcs[next := name], next + 1;
      }
      return if Hit(f, Site.CreateVPC) then None else Some(Resource(next - 1, name));
    }

    method EnsureSubnet(id: Id, vpc: Id, name: string, f: Fault) returns (r: Option<Resource>)
      modifies this
      ensures Call(Snapshot(), r) == EnsureSubnetCall(old(Snapshot()), id, vpc, name, f)
    {
      if id != 0 {
        var got := GetSubnet(id, ReadSubnet, f);
        return if got.Got? then Some(got.resource) else None;
      }
      if Hit(f, ReadSubnet) {
        return None;
      }
      var list := set i | i in subnets && subnets[i].vpc == vpc && subnets[i].name == name;
      FindByCount(list);
      assert list == SubnetsNamed(Snapshot(), vpc, name);
      if |list| > 1 {
        return None;
      }
      if |list| == 1 {
        var i :| i in list;
        return Some(Resource(i, subnets[i].name));
      }
      if !Hit(f, Site.CreateSubnet) || f.took {
        subnets, next := subnets[next := Subnet(name, vpc, [])], next + 1;
      }
      return if Hit(f, Site.CreateSubnet) then None else Some(Resource(next - 1, name));
    }

    /** The groups of the project, each once, in the order the cloud lists them. */
    method ListGroups() returns (ids: seq<Id>)
      ensures forall i :: i in ids <==> i in groups
      ensures forall a, b :: 0 <= a < b < |ids| ==> ids[a] != ids[b]
    {
      ids := [];
      var rest := groups.Keys;
      while rest != {}
        invariant rest <= groups.Keys
        invariant forall i :: i in ids <==> i in groups.Keys - rest
        invariant forall a, b :: 0 <= a < b < |ids| ==> ids[a] != ids[b]
      {
        var i :| i in rest;
        assert i !in ids;
        ids := ids + [i];
        rest := rest - {i};
      }
    }

    /** Scan all groups for the name; a second one with it is an error. */
    method FindGroup(name: string) returns (found: Found)
      ensures found == Find(GroupsNamed(Snapshot(), name))
    {
      found := Missing;
      var listed := ListGroups();
      ghost var named := GroupsNamed(Snapshot(), name);
      for i := 0 to |listed|
        invariant !found.Many?
        invariant found.Missing? ==> forall a :: 0 <= a < i ==> listed[a] !in named
        invariant found.One? ==> found.id in named && found.id in listed[..i]
                                 && forall a :: 0 <= a < i && listed[a] in named ==> listed[a] == found.id
      {
        if groups[listed[i]].name == name {
          if found.One? {
            var a :| 0 <= a < i && listed[a] == found.id;
            TwoAreMany(named, found.id, listed[i]);
            return Many;
          }
          found := One(listed[i]);
        }
      }
      assert forall i :: i in named ==> i in listed;
      assert named == if found.Missing? then {} else {found.id};
    }

    method EnsureSecurityGroup(id: Id, name: string, wanted: seq<Rule>, obsolete: seq<Rule>, read: Site, f: Fault)
      returns (r: Option<Resource>)
      modifies this
      ensures Call(Snapshot(), r) == EnsureSecurityGroupCall(old(Snapshot()), id, name, wanted, obsolete, read, f)
    {
      hide Find, RulesCall, GroupsNamed;
      var group: Id;
      if Hit(f, read) {
        return None;
      }
      if id != 0 {
        if id !in groups {
          return None;
        }
        group := id;
      } else {
        var found := FindGroup(name);
        FoundIsNamed(Snapshot(), name);
        match found {
          case Many => return None;
          case One(i) => group := i;
          case Missing =>
            if !Hit(f, Site.CreateGroup) || f.took {
              groups, next := groups[next := Group(name, [])], next + 1;
            }
            if Hit(f, Site.CreateGroup) {
              return None;
            }
            group := next - 1;
        }
      }
      r := ReconcileGroupRules(group, wanted, obsolete, f);
    }

    /** Add what is missing, then remove what is obsolete, in a group that was just read. */
    method ReconcileGroupRules(group: Id, wanted: seq<Rule>, obsolete: seq<Rule>, f: Fault) returns (r: Option<Resource>)
      requires group in groups
      modifies this
      ensures Call(Snapshot(), r) == RulesCall(old(Snapshot()), group, wanted, obsolete, f)
    {
      hide ReconcileRules;
      var g := groups[group];
      var rules, last, ok := EnsureRules(g.name, g.rules, wanted, obsolete, next, f);
      groups, next := groups[group := g.(rules := rules)], last;
      return if ok then Some(Resource(group, g.name)) else None;
    }

    method AttachedPorts(subnet: Id, f: Fault) returns (n: Option<nat>)
      ensures n == if Hit(f, ReadPorts) then None else Some(PortsOn(Snapshot(), subnet))
      ensures n.Some? ==> n.value == if subnet in subnets then |InstancePorts(subnets[subnet].ports)| else 0
    {
      if Hit(f, ReadPorts) {
        return None;
      }
      if subnet !in subnets {
        return Some(0);
      }
      var owners, attached := subnets[subnet].ports, 0;
      for i := 0 to |owners|
        invariant attached == ComputePorts(owners[..i])
      {
        assert owners[..i + 1][..i] == owners[..i];
        if ComputePort(owners[i]) {
          attached := attached + 1;
        }
      }
      assert owners[..|owners|] == owners;
      PortsCounted(owners);
      return Some(attached);
    }

    /** Deleting what is already gone succeeds. */
    method DeleteSecurityGroup(id: Id, f: Fault) returns (ok: bool)
      modifies this
      ensures ok == !Hit(f, DeleteResource)
      ensures Snapshot() == if ok || f.took then old(Snapshot()).(groups := old(groups) - {id}) else old(Snapshot())
    {
      ok := !Hit(f, DeleteResource);
      if ok || f.took {
        groups := groups - {id};
      }
    }

    method DeleteSubnet(id: Id, f: Fault) returns (ok: bool)
      modifies this
      ensures ok == !Hit(f, DeleteResource)
      ensures Snapshot() == if ok || f.took then old(Snapshot()).(subnets := old(subnets) - {id}) else old(Snapshot())
    {
      ok := !Hit(f, DeleteResource);
      if ok || f.took {
        subnets := subnets - {id};
      }
    }

    method DeleteVPC(id: Id, f: Fault) returns (ok: bool)
      modifies this
      ensures ok == !Hit(f, DeleteResource)
      ensures Snapshot() == if ok || f.took then old(Snapshot()).(vpcs := old(vpcs) - {id}) else old(Snapshot())
    {
      ok := !Hit(f, DeleteResource);
      if ok || f.took {
        vpcs := vpcs - {id};
      }
    }
  }

  lemma TwoAreMany(ids: set<Id>, i: Id, j: Id)
    requires i in ids && j in ids && i != j
    ensures Find(ids) == Many
  {
    assert forall k :: ids == {k} ==> i in {k} && j in {k};
  }
}
