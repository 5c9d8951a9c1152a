/**
 The reconciler as a protocol.

 An `Effect` is one thing a pass can do to the persisted object or to the cloud; `Enabled`
 is what is known when a pass does it.  A `Move` is an effect or something the rest of the
 world does.  Runs are sequences of legal moves.  The cloud and the surroundings may change
 between any two effects of a pass; spec edits and delete requests fall between passes, since a
 pass goes on with the copy of the object that it read.
 */
module Protocol {
  import opened Names
  import opened Rules
  import opened Adoption
  import opened State

  datatype Effect =
    | AddFinalizer
    | AddOwner(owner: string)
    | SetClusterUID(cluster: string)
    | LowerReady
    | TakeToken
    | CreateVPC(name: string) | RecordVPC(id: Id)
    | CreateSubnet(name: string) | RecordSubnet(id: Id)
    | CreateGroup(name: string) | RecordGroup(id: Id)
    | EditRules(rules: seq<CloudRule>, next: Id)
    | AdoptAll(vpc: Id, subnet: Id, group: Id)
    | ObserveAll(vpc: Id, subnet: Id, group: Id)
    | MarkReady
    | Expire
    | DeleteGroup | ClearGroup
    | DeleteSubnet | ClearSubnet
    | DeleteVPC | ClearVPC
    | Release

  /** The part of the ownership token that ends the names of this object's resources. */
  function Tag(n: Network): string {
    ShortToken(n.status.token)
  }

  /** The persisted object is live: not being deleted, finalizer in place. */
  predicate Live(n: Network) {
    !n.deleting && n.finalizer
  }

  /** A pass of this object may create resources of its own and holds its token. */
  predicate Creating(n: Network) {
    Live(n) && n.spec.Effective() == Managed && n.status.token != ""
  }

  /** A group of this object's own is wanted: a Managed network or a hybrid one. */
  predicate CreatingGroup(n: Network) {
    && Live(n) && n.status.token != ""
    && (n.spec.Effective() == Managed || (n.spec.Effective() == Observe && n.spec.GroupManaged()))
  }

  /** The controller keeps the group's rules: not for a group it only observes. */
  predicate RulesWanted(s: Spec) {
    s.Effective() == Managed || s.policy == Adopt || (s.policy == Observe && s.GroupManaged())
  }

  /** The gates every delete passed: no machines, and no instance on a managed subnet. */
  predicate Cleared(w: World) {
    && w.net.deleting && w.net.finalizer && w.net.spec.policy != Abandon
    && |w.env.machines| == 0
    && (w.net.status.subnet.managed ==> NoInstances(w.cloud, w.net.status.subnet.id))
  }

  ghost predicate Enabled(w: World, e: Effect) {
    var n, c, s := w.net, w.cloud, w.net.status;
    match e
    case AddFinalizer => !n.deleting
    case AddOwner(owner) => Live(n) && w.env.cluster == Some(owner)
    case SetClusterUID(_) => Live(n)
    case LowerReady => n.finalizer
    case TakeToken => Live(n) && s.token == ""
    case CreateVPC(name) =>
      && Creating(n) && s.vpc.id == 0
      && OwnName(Tag(n), name) && forall i :: i in c.vpcs ==> c.vpcs[i] != name
    case RecordVPC(id) =>
      && Creating(n) && s.vpc.id == 0
      && id in c.vpcs && OwnName(Tag(n), c.vpcs[id])
    case CreateSubnet(name) =>
      && Creating(n) && s.vpc.id != 0 && s.subnet.id == 0
      && OwnName(Tag(n), name)
      && forall i :: i in c.subnets && c.subnets[i].vpc == s.vpc.id ==> c.subnets[i].name != name
    case RecordSubnet(id) =>
      && Creating(n) && s.vpc.id != 0 && s.subnet.id == 0
      && id in c.subnets && c.subnets[id].vpc == s.vpc.id && OwnName(Tag(n), c.subnets[id].name)
    case CreateGroup(name) =>
      && CreatingGroup(n) && s.group.id == 0
      && OwnName(Tag(n), name) && forall i :: i in c.groups ==> c.groups[i].name != name
    case RecordGroup(id) =>
      && CreatingGroup(n) && s.group.id == 0
      && id in c.groups && OwnName(Tag(n), c.groups[id].name)
    case EditRules(rules, next) =>
      && Live(n) && s.group.id in c.groups && c.next <= next && GoodRules(rules, next)
      && RulesWanted(n.spec)
    case AdoptAll(vpc, subnet, group) =>
      && Live(n) && n.spec.policy == Adopt && !n.AllRecorded()
      && vpc in c.vpcs && subnet in c.subnets && group in c.groups
      && Discover(Listed(w.env.machines), w.env.secrets) == Adopted(vpc, subnet, group)
    case ObserveAll(vpc, subnet, group) =>
      && Live(n) && n.spec.policy == Observe
      && vpc == n.spec.vpcID && subnet == n.spec.subnetID
      && group == (if n.spec.GroupManaged() then s.group.id else n.spec.groupID)
      && vpc in c.vpcs && subnet in c.subnets && group in c.groups
    case MarkReady =>
      Live(n) && n.AllRecorded() && (n.spec.Effective() == Managed || n.spec.policy == Adopt)
    case Expire => Live(n) && w.env.cluster.None? && w.env.expired
    case DeleteGroup =>
      && Cleared(w) && s.group.managed
      && (s.group.id in c.groups ==> c.groups[s.group.id].name == s.group.name)
    case ClearGroup => Cleared(w) && s.group.managed && s.group.id !in c.groups
    case DeleteSubnet =>
      && Cleared(w) && s.subnet.managed && !s.group.managed
      && (s.subnet.id in c.subnets ==> c.subnets[s.subnet.id].name == s.subnet.name)
    case ClearSubnet => Cleared(w) && s.subnet.managed && s.subnet.id !in c.subnets
    case DeleteVPC =>
      && Cleared(w) && s.vpc.managed && !s.group.managed && !s.subnet.managed
      && (s.vpc.id in c.vpcs ==> c.vpcs[s.vpc.id] == s.vpc.name)
    case ClearVPC => Cleared(w) && s.vpc.managed && s.vpc.id !in c.vpcs
    case Release => n.deleting && n.finalizer && (n.spec.policy == Abandon || n.NothingManaged())
  }

  // Families of effects, so that proofs can treat alike what behaves alike.

  /** Effects that leave the cloud and the recorded resources alone. */
  predicate Paperwork(e: Effect) {
    || e.AddFinalizer? || e.AddOwner? || e.SetClusterUID? || e.LowerReady? || e.TakeToken?
    || e.MarkReady? || e.Expire? || e.Release?
  }

  predicate Creates(e: Effect) {
    e.CreateVPC? || e.CreateSubnet? || e.CreateGroup?
  }

  predicate Records(e: Effect) {
    e.RecordVPC? || e.RecordSubnet? || e.RecordGroup? || e.AdoptAll? || e.ObserveAll?
  }

  predicate Deletes(e: Effect) {
    e.DeleteGroup? || e.DeleteSubnet? || e.DeleteVPC? || e.ClearGroup? || e.ClearSubnet? || e.ClearVPC?
  }

  function WithStatus(w: World, s: Status): World {
    w.(net := w.net.(status := s))
  }

  function Perform(w: World, e: Effect): World {
    var n, c, s := w.net, w.cloud, w.net.status;
    match e
    case AddFinalizer => w.(net := n.(finalizer := true))
    case AddOwner(owner) => w.(net := n.(owners := n.owners + {owner}))
    case SetClusterUID(uid) => WithStatus(w, s.(clusterUID := uid))
    case LowerReady => WithStatus(w, s.(ready := false))
    case TakeToken => WithStatus(w, s.(token := n.uid))
    case CreateVPC(name) => w.(cloud := c.(vpcs := c.vpcs[c.next := name], next := c.next + 1))
    case RecordVPC(id) =>
      if id in c.vpcs then WithStatus(w, s.(vpc := ResourceStatus(id, c.vpcs[id], true))) else w
    case CreateSubnet(name) =>
      w.(cloud := c.(subnets := c.subnets[c.next := Subnet(name, s.vpc.id, [])], next := c.next + 1))
    case RecordSubnet(id) =>
      if id in c.subnets then WithStatus(w, s.(subnet := ResourceStatus(id, c.subnets[id].name, true))) else w
    case CreateGroup(name) =>
      w.(cloud := c.(groups := c.groups[c.next := Group(name, [])], next := c.next + 1))
    case RecordGroup(id) =>
      if id in c.groups then WithStatus(w, s.(group := ResourceStatus(id, c.groups[id].name, true))) else w
    case EditRules(rules, next) =>
      if s.group.id in c.groups then
        w.(cloud := c.(groups := c.groups[s.group.id := c.groups[s.group.id].(rules := rules)], next := next))
      else w
    case AdoptAll(vpc, subnet, group) =>
      if vpc in c.vpcs && subnet in c.subnets && group in c.groups then
        WithStatus(w, s.(
          token := n.uid,
          vpc := ResourceStatus(vpc, c.vpcs[vpc], true),
          subnet := ResourceStatus(subnet, c.subnets[subnet].name, true),
          group := ResourceStatus(group, c.groups[group].name, true)))
      else w
    case ObserveAll(vpc, subnet, group) =>
      if vpc in c.vpcs && subnet in c.subnets && group in c.groups then
        WithStatus(w, s.(
          observed := n.generation, ready := true,
          vpc := ResourceStatus(vpc, c.vpcs[vpc], false),
          subnet := ResourceStatus(subnet, c.subnets[subnet].name, false),
          group := ResourceStatus(group, c.groups[group].name, n.spec.GroupManaged()),
          applied := if n.spec.GroupManaged() then n.spec.cidrs else s.applied))
      else w
    case MarkReady => WithStatus(w, s.(observed := n.generation, ready := true, applied := n.spec.cidrs))
    case Expire => w.(net := n.(deleting := true))
    case DeleteGroup => w.(cloud := c.(groups := c.groups - {s.group.id}))
    case ClearGroup => WithStatus(w, s.(group := NO_RESOURCE))
    case DeleteSubnet => w.(cloud := c.(subnets := c.subnets - {s.subnet.id}))
    case ClearSubnet => WithStatus(w, s.(subnet := NO_RESOURCE))
    case DeleteVPC => w.(cloud := c.(vpcs := c.vpcs - {s.vpc.id}))
    case ClearVPC => WithStatus(w, s.(vpc := NO_RESOURCE))
    case Release => w.(net := n.(finalizer := false))
  }

  // ---------------------------------------------------------------- the rest of the world

  /**
   What anyone else may do to the cloud while an object with short token `t` exists: anything,
   except reuse an identifier or create, rename or move a resource into the object's names.
   */
  ghost predicate Rely(t: string, c: Cloud, d: Cloud) {
    && d.Valid() && c.next <= d.next
    && (forall i :: i in d.vpcs && i < c.next ==> i in c.vpcs)
    && (forall i :: i in d.subnets && i < c.next ==> i in c.subnets)
    && (forall i :: i in d.groups && i < c.next ==> i in c.groups)
    && (forall i :: i in d.vpcs && OwnName(t, d.vpcs[i]) ==> i in c.vpcs && c.vpcs[i] == d.vpcs[i])
    && (forall i :: i in d.subnets && OwnName(t, d.subnets[i].name) ==>
          i in c.subnets && c.subnets[i].name == d.subnets[i].name && c.subnets[i].vpc == d.subnets[i].vpc)
    && (forall i :: i in d.groups && OwnName(t, d.groups[i].name) ==> i in c.groups && c.groups[i].name == d.groups[i].name)
  }

  /** The fields of a machine config that the network decides. */
  function Shared(s: Status): Config {
    map["vpcId" := Ident(s.vpc.id), "vpcName" := Text(s.vpc.name),
        "subnetId" := Ident(s.subnet.id), "subnetName" := Text(s.subnet.name),
        "secGroups" := Text(s.group.name), "networkScope" := Text("shared"), "skipDefaultSg" := Flag(true)]
  }

  /** One config with some fields overwritten and the others kept. */
  function Patched(configs: map<string, Config>, name: string, fields: Config): map<string, Config> {
    if name in configs then configs[name := configs[name] + fields] else configs
  }

  /** The network may be propagated: Ready at its current generation with complete status. */
  predicate Complete(n: Network) {
    n.AllRecorded() && n.status.group.name != ""
  }

  predicate Propagates(n: Network) {
    n.status.ready && n.status.observed == n.generation && Complete(n)
  }

  datatype Move =
    | Do(effect: Effect)
    | Edit(spec: Spec)             // someone edits the spec
    | RequestDelete                // someone asks for deletion
    | Surround(env: Env)           // machines, Secrets, cluster, clock and configs change
    | Outside(cloud: Cloud)        // someone else changes the cloud
    | Propagate(config: string)    // the bootstrap controller patches one machine config

  ghost predicate Legal(w: World, m: Move) {
    match m
    case Do(e) => Enabled(w, e)
    case Edit(_) => true
    case RequestDelete => true
    case Surround(_) => true
    case Outside(d) => Rely(ShortToken(w.net.uid), w.cloud, d)
    case Propagate(name) => Propagates(w.net) && name in w.env.configs
  }

  function After(w: World, m: Move): World {
    match m
    case Do(e) => Perform(w, e)
    case Edit(spec) => w.(net := w.net.(spec := spec, generation := w.net.generation + 1))
    case RequestDelete => w.(net := w.net.(deleting := true))
    case Surround(env) => w.(env := env)
    case Outside(d) => w.(cloud := d)
    case Propagate(name) => w.(env := w.env.(configs := Patched(w.env.configs, name, Shared(w.net.status))))
  }

  function RunOf(w: World, ms: seq<Move>): World {
    if ms == [] then w else After(RunOf(w, ms[..|ms| - 1]), ms[|ms| - 1])
  }

  ghost predicate LegalRun(w: World, ms: seq<Move>) {
    ms == [] || (LegalRun(w, ms[..|ms| - 1]) && Legal(RunOf(w, ms[..|ms| - 1]), ms[|ms| - 1]))
  }

  lemma {:induction false} Append(w: World, a: seq<Move>, b: seq<Move>)
    ensures RunOf(w, a + b) == RunOf(RunOf(w, a), b)
    ensures LegalRun(w, a + b) <==> LegalRun(w, a) && LegalRun(RunOf(w, a), b)
  {
    if b == [] {
      assert a + b == a;
    } else {
      Append(w, a, b[..|b| - 1]);
      assert (a + b)[..|a + b| - 1] == a + b[..|b| - 1];
    }
  }

  lemma OneMove(w: World, m: Move)
    ensures RunOf(w, [m]) == After(w, m)
    ensures LegalRun(w, [m]) <==> Legal(w, m)
  {
    assert [m][..0] == [];
  }
}
