/**
 One reconcile pass as a function of the state and of one fault.

 This is the specification the imperative controller is proved against.  `Step` is `Go` while
 the pass goes on and `Stop` when it returns; the world in either is what the API server and
 the cloud then hold.
 */
module Reconcile {
  import opened Faults
  import opened Rules
  import opened Adoption
  import opened State
  import opened Protocol

  datatype Exit =
    | Gone               // nothing left to do for this object
    | Again              // requeued at once
    | Waiting            // requeued while machines or ports remain
    | Steady             // requeued after the long interval
    | Abandoned          // finalizer removed, resources left behind
    | NothingLeft        // finalizer removed, nothing is managed
    | AllDeleted         // finalizer removed by the trailing exit
    | Failed

  datatype Step = Go(w: World) | Stop(w: World, exit: Exit) {
    predicate IsFailure() { Stop? }
    function PropagateFailure(): Step requires Stop? { this }
    function Extract(): World requires Go? { w }
  }

  /** How a pass over a live object can return. */
  predicate Returns(s: Step) {
    s.Stop? && (s.exit.Gone? || s.exit.Again? || s.exit.Steady? || s.exit.Failed?)
  }

  // ---------------------------------------------------------------- fallible calls

  /** A write to the API server; on failure the pass returns the error as it is. */
  function Write(w: World, e: Effect, s: Site, f: Fault): (r: Step)
    ensures r.Stop? ==> r.exit.Failed?
  {
    if !Hit(f, s) then Go(Perform(w, e))
    else Stop(if f.took then Perform(w, e) else w, Failed)
  }

  /** Report a failure in the Ready condition; the report may be lost. */
  function Fail(w: World, f: Fault): (r: Step)
    ensures r.Stop? && r.exit.Failed?
  {
    Stop(if f.told then Perform(w, LowerReady) else w, Failed)
  }

  /** A write whose failure is reported. */
  function ReportedWrite(w: World, e: Effect, s: Site, f: Fault): (r: Step)
    ensures r.Stop? ==> r.exit.Failed?
  {
    if !Hit(f, s) then Go(Perform(w, e))
    else Fail(if f.took then Perform(w, e) else w, f)
  }

  // ---------------------------------------------------------------- the cloud service

  datatype Resource = Resource(id: Id, name: string)
  datatype Call = Call(cloud: Cloud, result: Option<Resource>)

  datatype Found = Missing | One(id: Id) | Many

  ghost function Find(ids: set<Id>): Found {
    if ids == {} then Missing
    else
      var i :| i in ids;
      if ids == {i} then One(i) else Many
  }

  function VPCsNamed(c: Cloud, name: string): set<Id> {
    set i | i in c.vpcs && c.vpcs[i] == name
  }

  function SubnetsNamed(c: Cloud, vpc: Id, name: string): set<Id> {
    set i | i in c.subnets && c.subnets[i].vpc == vpc && c.subnets[i].name == name
  }

  function GroupsNamed(c: Cloud, name: string): set<Id> {
    set i | i in c.groups && c.groups[i].name == name
  }

  lemma FoundIsNamed(c: Cloud, name: string)
    ensures var found := Find(GroupsNamed(c, name)); found.One? ==> found.id in c.groups && c.groups[found.id].name == name
  {
  }

  function GetVPCCall(c: Cloud, id: Id): Option<Resource> {
    if id in c.vpcs then Some(Resource(id, c.vpcs[id])) else None
  }

  function GetSubnetCall(c: Cloud, id: Id): Option<Resource> {
    if id in c.subnets then Some(Resource(id, c.subnets[id].name)) else None
  }

  function GetGroupCall(c: Cloud, id: Id): Option<Resource> {
    if id in c.groups then Some(Resource(id, c.groups[id].name)) else None
  }

  /** A create that may fail with or without effect. */
  function CreateCall(c: Cloud, created: Cloud, name: string, s: Site, f: Fault): Call {
    if !Hit(f, s) then Call(created, Some(Resource(c.next, name)))
    else Call(if f.took then created else c, None)
  }

  ghost function EnsureVPCCall(c: Cloud, id: Id, name: string, f: Fault): Call {
    if Hit(f, ReadVPC) then Call(c, None)
    else if id != 0 then Call(c, GetVPCCall(c, id))
    else match Find(VPCsNamed(c, name))
      case Many => Call(c, None)
      case One(i) => Call(c, Some(Resource(i, name)))
      case Missing => CreateCall(c, c.(vpcs := c.vpcs[c.next := name], next := c.next + 1), name, Site.CreateVPC, f)
  }

  ghost function EnsureSubnetCall(c: Cloud, id: Id, vpc: Id, name: string, f: Fault): Call {
    if Hit(f, ReadSubnet) then Call(c, None)
    else if id != 0 then Call(c, GetSubnetCall(c, id))
    else match Find(SubnetsNamed(c, vpc, name))
      case Many => Call(c, None)
      case One(i) => Call(c, Some(Resource(i, name)))
      case Missing =>
        CreateCall(c, c.(subnets := c.subnets[c.next := Subnet(name, vpc, [])], next := c.next + 1), name, Site.CreateSubnet, f)
  }

  ghost function EnsureGroupCall(c: Cloud, id: Id, name: string, f: Fault): Call {
    if Hit(f, ReadGroup) then Call(c, None)
    else if id != 0 then Call(c, GetGroupCall(c, id))
    else match Find(GroupsNamed(c, name))
      case Many => Call(c, None)
      case One(i) => Call(c, Some(Resource(i, name)))
      case Missing =>
        CreateCall(c, c.(groups := c.groups[c.next := Group(name, [])], next := c.next + 1), name, Site.CreateGroup, f)
  }

  // ---------------------------------------------------------------- stages of a live pass

  ghost function BindOwner(w: World, f: Fault): (r: Step)
    ensures r.Stop? ==> r.exit.Again? || r.exit.Failed?
  {
    if Hit(f, GetCluster) then Fail(w, f)
    else match w.env.cluster
      case None => Go(w)
      case Some(uid) =>
        if uid !in w.net.owners then
          var w1 :- ReportedWrite(w, AddOwner(uid), PatchOwner, f);
          Stop(w1, Again)
        else if w.net.status.clusterUID != uid then
          ReportedWrite(w, SetClusterUID(uid), PatchClusterUID, f)
        else Go(w)
  }

  ghost function TokenStage(w: World, f: Fault): (r: Step)
    ensures r.Stop? ==> r.exit.Failed?
  {
    if w.net.status.token == "" then Write(w, TakeToken, PatchToken, f) else Go(w)
  }

  ghost function VPCStage(w: World, name: string, f: Fault): (r: Step)
    ensures r.Stop? ==> r.exit.Failed?
  {
    var call := EnsureVPCCall(w.cloud, w.net.status.vpc.id, name, f);
    var w1 := w.(cloud := call.cloud);
    if call.result.None? then Fail(w1, f)
    else if w.net.status.vpc.id != call.result.value.id then Write(w1, RecordVPC(call.result.value.id), PatchVPC, f)
    else Go(w1)
  }

  ghost function SubnetStage(w: World, name: string, f: Fault): (r: Step)
    ensures r.Stop? ==> r.exit.Failed?
  {
    var call := EnsureSubnetCall(w.cloud, w.net.status.subnet.id, w.net.status.vpc.id, name, f);
    var w1 := w.(cloud := call.cloud);
    if call.result.None? then Fail(w1, f)
    else if w.net.status.subnet.id != call.result.value.id then Write(w1, RecordSubnet(call.result.value.id), PatchSubnet, f)
    else Go(w1)
  }

  ghost function GroupStage(w: World, name: string, f: Fault): (r: Step)
    ensures r.Stop? ==> r.exit.Failed?
  {
    var call := EnsureGroupCall(w.cloud, w.net.status.group.id, name, f);
    var w1 := w.(cloud := call.cloud);
    if call.result.None? then Fail(w1, f)
    else if w.net.status.group.id != call.result.value.id then Write(w1, RecordGroup(call.result.value.id), PatchGroup, f)
    else Go(w1)
  }

  /** The rule pass over the recorded group. */
  function RulesOf(w: World, f: Fault): RulePass
    requires w.net.status.group.id in w.cloud.groups
  {
    var group, spec := w.cloud.groups[w.net.status.group.id], w.net.spec;
    ReconcileRules(group.name, group.rules, Wanted(w.net.status.group.id, spec.cidrs, spec.cni),
                   Obsolete(w.net.status.applied, spec.cidrs), w.cloud.next, f)
  }

  ghost function RuleStage(w: World, f: Fault): (r: Step)
    ensures r.Stop? ==> r.exit.Failed?
  {
    if Hit(f, ReadRules) || w.net.status.group.id !in w.cloud.groups then Fail(w, f)
    else
      var p := RulesOf(w, f);
      var w1 := Perform(w, EditRules(p.rules, p.next));
      if p.ok then Go(w1) else Fail(w1, f)
  }

  ghost function ReadyStage(w: World, f: Fault): (r: Step)
    ensures Returns(r)
  {
    var w1 :- Write(w, MarkReady, PatchReady, f);
    Stop(w1, Steady)
  }

  /** A group of the object's own, then its rules. */
  ghost function OwnGroupStage(w: World, group: string, f: Fault): (r: Step)
    ensures r.Stop? ==> r.exit.Failed?
  {
    var w1 :- GroupStage(w, group, f);
    RuleStage(w1, f)
  }

  /** The three resources in order, each recorded before the next is looked up, then the rules. */
  ghost function ResourcesPass(w: World, names: ResourceNames, f: Fault): (r: Step)
    ensures Returns(r)
  {
    var w1 :- VPCStage(w, names.vpc, f);
    var w2 :- SubnetStage(w1, names.subnet, f);
    var w3 :- OwnGroupStage(w2, names.group, f);
    ReadyStage(w3, f)
  }

  ghost function ManagedPass(w: World, names: ResourceNames, f: Fault): (r: Step)
    ensures Returns(r)
  {
    var w1 :- TokenStage(w, f);
    ResourcesPass(w1, names, f)
  }

  /** Verify that the discovered resources exist, then record all three at once. */
  function AdoptFound(w: World, vpc: Id, subnet: Id, group: Id, f: Fault): (r: Step)
    ensures Returns(r) && !r.exit.Steady?
  {
    if Hit(f, ReadVPC) || vpc !in w.cloud.vpcs then Fail(w, f)
    else if Hit(f, ReadSubnet) || subnet !in w.cloud.subnets then Fail(w, f)
    else if Hit(f, ReadGroup) || group !in w.cloud.groups then Fail(w, f)
    else
      var w1 :- Write(w, AdoptAll(vpc, subnet, group), PatchResources, f);
      Stop(w1, Again)
  }

  ghost function AdoptStage(w: World, f: Fault): (r: Step)
    ensures Returns(r) && !r.exit.Steady?
  {
    if Hit(f, ListMachines) then Fail(w, f)
    else match Discover(Listed(w.env.machines), w.env.secrets)
      case Refused => Fail(w, f)
      case Adopted(vpc, subnet, group) => AdoptFound(w, vpc, subnet, group, f)
  }

  ghost function AdoptPass(w: World, f: Fault): (r: Step)
    ensures Returns(r)
  {
    if !w.net.AllRecorded() then AdoptStage(w, f)
    else
      var w1 :- RuleStage(w, f);
      ReadyStage(w1, f)
  }

  /** The group an Observe network ends up with: its own, or the one its spec names. */
  ghost function ObservedGroupStage(w: World, names: ResourceNames, f: Fault): (r: Step)
    ensures r.Stop? ==> r.exit.Failed?
  {
    if w.net.spec.GroupManaged() then
      var w1 :- TokenStage(w, f);
      OwnGroupStage(w1, names.group, f)
    else if Hit(f, ReadGroup) || w.net.spec.groupID !in w.cloud.groups then Fail(w, f)
    else Go(w)
  }

  ghost function ObservePass(w: World, names: ResourceNames, f: Fault): (r: Step)
    ensures Returns(r)
  {
    var spec := w.net.spec;
    if Hit(f, ReadVPC) || spec.vpcID !in w.cloud.vpcs then Fail(w, f)
    else if Hit(f, ReadSubnet) || spec.subnetID !in w.cloud.subnets then Fail(w, f)
    else
      var w1 :- ObservedGroupStage(w, names, f);
      var group := if spec.GroupManaged() then w1.net.status.group.id else spec.groupID;
      var w2 :- Write(w1, ObserveAll(spec.vpcID, spec.subnetID, group), PatchReady, f);
      Stop(w2, Steady)
  }

  ghost function PolicyPass(w: World, names: ResourceNames, f: Fault): (r: Step)
    ensures Returns(r)
  {
    match w.net.spec.Effective()
    case Managed => ManagedPass(w, names, f)
    case Observe => ObservePass(w, names, f)
    case Adopt => AdoptPass(w, f)
    case _ => Fail(w, f)
  }

  ghost function LivePass(w: World, names: ResourceNames, f: Fault): (r: Step)
    ensures Returns(r)
  {
    var w1 :- BindOwner(w, f);
    if w1.env.cluster.None? && w1.env.expired then
      var w2 :- Write(w1, Expire, ExpireNetwork, f);
      Stop(w2, Gone)
    else if Hit(f, Credentials) then Fail(w1, f)
    else PolicyPass(w1, names, f)
  }

  // ---------------------------------------------------------------- deletion

  /** A recorded resource may be deleted when it is gone or still carries its recorded name. */
  predicate Verified(r: ResourceStatus, actual: Option<Resource>) {
    r.managed && (actual.None? || actual.value.name == r.name)
  }

  /** Verify, delete, and only then clear the record. */
  function DeleteStage(w: World, verified: bool, delete': Effect, clear: Effect, f: Fault): (r: Step)
    ensures Returns(r) && !r.exit.Steady?
  {
    if Hit(f, VerifyOwnership) || !verified then Fail(w, f)
    else
      var w1 :- Write(w, delete', DeleteResource, f);
      var w2 :- Write(w1, clear, ClearResource, f);
      Stop(w2, Again)
  }

  function ReleaseStage(w: World, exit: Exit, f: Fault): (r: Step)
    ensures r.Stop? && (r.exit == exit || r.exit.Failed?)
  {
    var w1 :- Write(w, Release, RemoveFinalizer, f);
    Stop(w1, exit)
  }

  /** The next managed resource in deletion order: group, subnet, VPC. */
  function ResourceDelete(w: World, f: Fault): (r: Step)
    ensures r.Stop? && (Returns(r) || r.exit.AllDeleted?) && !r.exit.Steady?
  {
    var s := w.net.status;
    if s.group.managed && s.group.id != 0 then
      DeleteStage(w, Verified(s.group, GetGroupCall(w.cloud, s.group.id)), DeleteGroup, ClearGroup, f)
    else if s.subnet.managed && s.subnet.id != 0 then
      DeleteStage(w, Verified(s.subnet, GetSubnetCall(w.cloud, s.subnet.id)), DeleteSubnet, ClearSubnet, f)
    else if s.vpc.managed && s.vpc.id != 0 then
      DeleteStage(w, Verified(s.vpc, GetVPCCall(w.cloud, s.vpc.id)), DeleteVPC, ClearVPC, f)
    else ReleaseStage(w, AllDeleted, f)
  }

  ghost function DeletePass(w: World, f: Fault): (r: Step)
    ensures r.Stop? && !r.exit.Steady?
  {
    var s := w.net.status;
    if !w.net.finalizer then Stop(w, Gone)
    else if w.net.spec.policy == Abandon then ReleaseStage(w, Abandoned, f)
    else if w.net.NothingManaged() then ReleaseStage(w, NothingLeft, f)
    else if Hit(f, ListMachines) then Stop(w, Failed)
    else if |w.env.machines| > 0 then Stop(w, Waiting)
    else if Hit(f, Credentials) then Fail(w, f)
    else if s.subnet.managed && s.subnet.id != 0 && Hit(f, ReadPorts) then Fail(w, f)
    else if s.subnet.managed && s.subnet.id != 0 && PortsOn(w.cloud, s.subnet.id) > 0 then Stop(w, Waiting)
    else ResourceDelete(w, f)
  }

  /** One call of Reconcile. */
  ghost function Pass(w: World, f: Fault): (r: Step)
    ensures r.Stop?
  {
    if Hit(f, GetNetwork) then Stop(w, Failed)
    else if w.net.deleting then DeletePass(w, f)
    else if !w.net.finalizer then
      var w1 :- Write(w, AddFinalizer, UpdateFinalizer, f);
      Stop(w1, Again)
    else LivePass(w, w.net.Names(), f)
  }
}
