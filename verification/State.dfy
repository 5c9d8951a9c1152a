/**
 The state the controller works on: the persisted network object, the cloud, and what
 surrounds them (the cluster, its machines, their state Secrets and machine configs).
 */
module State {
  import opened Names
  import opened Rules
  import opened Adoption

  datatype Option<+T> = None | Some(value: T)

  // ---------------------------------------------------------------- the network object

  datatype Policy = Unset | Managed | Observe | Adopt | Abandon | Unknown(text: string)

  datatype Spec = Spec(
    policy: Policy,
    groupPolicy: Policy,
    vpcID: Id, subnetID: Id, groupID: Id,
    vpcName: string, subnetName: string, groupName: string,
    cidrs: seq<string>, cni: string)
  {
    /** An unset policy counts as Managed. */
    function Effective(): Policy {
      if policy == Unset then Managed else policy
    }

    predicate GroupManaged() {
      groupPolicy == Managed
    }
  }

  datatype ResourceStatus = ResourceStatus(id: Id, name: string, managed: bool)

  const NO_RESOURCE := ResourceStatus(0, "", false)

  datatype Status = Status(
    clusterUID: string, token: string,
    vpc: ResourceStatus, subnet: ResourceStatus, group: ResourceStatus,
    applied: seq<string>, observed: nat, ready: bool)

  datatype ResourceNames = ResourceNames(vpc: string, subnet: string, group: string)

  datatype Network = Network(
    uid: string, cluster: string,
    spec: Spec, generation: nat,
    deleting: bool, finalizer: bool, owners: set<string>,
    status: Status)
  {
    /** The token names are made with: the recorded one, or the one about to be taken. */
    function Token(): string {
      if status.token == "" then uid else status.token
    }

    /** The names of this object's own resources. */
    function Names(): ResourceNames {
      var t := ShortToken(Token());
      ResourceNames(
        ManagedName(FirstNonEmpty(spec.vpcName, cluster), t),
        ManagedName(FirstNonEmpty(spec.subnetName, cluster + "-subnet"), t),
        ManagedName(FirstNonEmpty(spec.groupName, cluster + "-rke2"), t))
    }

    predicate NothingManaged() {
      !status.vpc.managed && !status.subnet.managed && !status.group.managed
    }

    predicate AllRecorded() {
      status.vpc.id != 0 && status.subnet.id != 0 && status.group.id != 0
    }
  }

  // ---------------------------------------------------------------- the cloud

  datatype Subnet = Subnet(name: string, vpc: Id, ports: seq<string>)
  datatype Group = Group(name: string, rules: seq<CloudRule>)

  /** `next` is the next identifier the cloud issues, to a resource or to a rule. */
  datatype Cloud = Cloud(vpcs: map<Id, string>, subnets: map<Id, Subnet>, groups: map<Id, Group>, next: Id)
  {
    /** Identifiers are not empty, were issued, and belong to one rule each; groups have names. */
    ghost predicate Valid() {
      && next > 0
      && (forall i :: i in vpcs ==> 0 < i < next)
      && (forall i :: i in subnets ==> 0 < i < next)
      && (forall i :: i in groups ==> 0 < i < next && groups[i].name != "" && GoodRules(groups[i].rules, next))
    }
  }

  predicate ComputePort(owner: string) {
    "compute:" <= owner
  }

  function ComputePorts(owners: seq<string>): nat {
    if owners == [] then 0
    else ComputePorts(owners[..|owners| - 1]) + if ComputePort(owners[|owners| - 1]) then 1 else 0
  }

  /** The compute ports on a subnet; a subnet that is gone has none. */
  function PortsOn(c: Cloud, subnet: Id): nat {
    if subnet in c.subnets then ComputePorts(c.subnets[subnet].ports) else 0
  }

  /** The port belongs to an instance: its owner begins with the eight characters "compute:". */
  predicate InstancePort(owner: string) {
    |owner| >= 8 && owner[..8] == ['c', 'o', 'm', 'p', 'u', 't', 'e', ':']
  }

  function InstancePorts(owners: seq<string>): set<nat> {
    set i: nat | i < |owners| && InstancePort(owners[i])
  }

  /** No instance is attached to the subnet; other ports do not matter. */
  predicate NoInstances(c: Cloud, subnet: Id) {
    subnet in c.subnets ==>
      forall i :: 0 <= i < |c.subnets[subnet].ports| ==> !InstancePort(c.subnets[subnet].ports[i])
  }

  /** The count is the number of ports that belong to instances. */
  lemma {:induction false} PortsCounted(owners: seq<string>)
    ensures ComputePorts(owners) == |InstancePorts(owners)|
  {
    if owners != [] {
      var pre, i := owners[..|owners| - 1], |owners| - 1;
      PortsCounted(pre);
      if InstancePort(owners[i]) {
        assert InstancePorts(owners) == InstancePorts(pre) + {i};
      } else {
        assert InstancePorts(owners) == InstancePorts(pre);
      }
    }
  }

  lemma NoPortsNoInstances(c: Cloud, subnet: Id)
    ensures PortsOn(c, subnet) == 0 <==> NoInstances(c, subnet)
  {
    if subnet in c.subnets {
      var owners := c.subnets[subnet].ports;
      PortsCounted(owners);
      if PortsOn(c, subnet) == 0 {
        forall i | 0 <= i < |owners| ensures !InstancePort(owners[i]) {
          assert i !in InstancePorts(owners);
        }
      } else {
        var i :| i in InstancePorts(owners);
      }
    }
  }

  // ---------------------------------------------------------------- surroundings

  /** A machine config is an open record: fields the controller does not know are kept. */
  datatype Value = Text(text: string) | Ident(id: Id) | Flag(on: bool)
  type Config = map<string, Value>

  datatype Env = Env(
    cluster: Option<string>, expired: bool,
    machines: seq<Machine>, secrets: map<string, Secret>,
    configs: map<string, Config>)

  datatype World = World(net: Network, cloud: Cloud, env: Env)
}
