/**
 Whole lives of an object, pass by pass: any number of passes, each cut at any call, with the
 rest of the world acting in between.  The theorems about moves carry over, and the gates of a
 delete and of the finalizer are read off complete passes.
 */
module Lifecycle {
  import opened Faults
  import opened Names
  import opened Rules
  import opened Adoption
  import opened State
  import opened Protocol
  import opened Invariants
  import opened Runs
  import opened Provenance
  import opened Reconcile
  import opened Refinement
  import opened Progress

  datatype Turn = Reconcile(fault: Fault) | Other(move: Move)

  ghost function AfterTurn(w: World, t: Turn): World {
    match t
    case Reconcile(f) => Pass(w, f).w
    case Other(m) => After(w, m)
  }

  ghost function Life(w: World, ts: seq<Turn>): World {
    if ts == [] then w else AfterTurn(Life(w, ts[..|ts| - 1]), ts[|ts| - 1])
  }

  /** Only passes do what the controller does; what others do is legal. */
  ghost predicate LegalLife(w: World, ts: seq<Turn>) {
    ts == [] ||
    (&& LegalLife(w, ts[..|ts| - 1])
     && var t := ts[|ts| - 1]; t.Other? ==> !t.move.Do? && Legal(Life(w, ts[..|ts| - 1]), t.move))
  }

  predicate TurnsFit(ts: seq<Turn>, p: Policy, hybrid: bool) {
    forall i :: 0 <= i < |ts| && ts[i].Other? && ts[i].move.Edit? ==> Fits(ts[i].move.spec, p, hybrid)
  }

  /** The edits among the moves are edits among the turns. */
  predicate SameEdits(ms: seq<Move>, ts: seq<Turn>) {
    forall i :: 0 <= i < |ms| && ms[i].Edit? ==> exists j :: 0 <= j < |ts| && ts[j] == Other(ms[i])
  }

  /** A life is a run of legal moves. */
  lemma {:induction false} LifeIsRun(w: World, ts: seq<Turn>) returns (ms: seq<Move>)
    requires Inv(w) && LegalLife(w, ts)
    ensures LegalRun(w, ms) && RunOf(w, ms) == Life(w, ts) && SameEdits(ms, ts)
    ensures Inv(Life(w, ts))
  {
    hide Pass, Inv, Legal, After;
    if ts == [] {
      ms := [];
    } else {
      var pre, t := ts[..|ts| - 1], ts[|ts| - 1];
      var before := LifeIsRun(w, pre);
      var v := Life(w, pre);
      var more: seq<Move>;
      match t {
        case Reconcile(f) => more := PassSteps(v, f);
        case Other(m) => OneMove(v, m); more := [m];
      }
      Append(w, before, more);
      ms := before + more;
      InvRun(w, ms);
      forall i | 0 <= i < |ms| && ms[i].Edit? ensures exists j :: 0 <= j < |ts| && ts[j] == Other(ms[i]) {
        if i < |before| {
          var j :| 0 <= j < |pre| && pre[j] == Other(before[i]);
          assert ts[j] == Other(ms[i]);
        } else {
          assert ts[|ts| - 1] == Other(ms[i]);
        }
      }
    }
  }

  lemma FitsCarries(ms: seq<Move>, ts: seq<Turn>, p: Policy, hybrid: bool)
    requires SameEdits(ms, ts) && TurnsFit(ts, p, hybrid)
    ensures EditsFit(ms, p, hybrid)
  {
    forall i | 0 <= i < |ms| && ms[i].Edit? ensures Fits(ms[i].spec, p, hybrid) {
      var j :| 0 <= j < |ts| && ts[j] == Other(ms[i]);
    }
  }

  /** Every new object whose policy is Managed or left out is Ready after three fault-free passes. */
  lemma NewObjectBecomesReady(w: World)
    requires Initial(w) && (w.net.spec.policy == Managed || w.net.spec.policy == Unset) && (w.env.cluster.Some? || !w.env.expired)
    ensures Live(Passes(w, 3).net) && IsReady(Passes(w, 3).net)
  {
    hide Passes, Inv, Live, IsReady;
    InitialInv(w);
    assert CanFinish(w);
    ThreePassesOrFour(w);
  }

  // ---------------------------------------------------------------- what a live pass keeps

  /** The cloud only grows; the object stays as live as it was, and its policy is not touched. */
  ghost predicate Onward(w: World, v: World) {
    && (forall k, id :: Exists(w.cloud, k, id) ==> Exists(v.cloud, k, id))
    && v.net.deleting == w.net.deleting && v.net.finalizer == w.net.finalizer && v.net.spec == w.net.spec && v.env == w.env
    && (w.net.status.token != "" ==> v.net.status.token == w.net.status.token)
  }

  /** A record, once written, is not changed. */
  predicate KeepsRecords(w: World, v: World) {
    && (w.net.status.vpc.id != 0 ==> v.net.status.vpc == w.net.status.vpc)
    && (w.net.status.subnet.id != 0 ==> v.net.status.subnet == w.net.status.subnet)
    && (w.net.status.group.id != 0 ==> v.net.status.group == w.net.status.group)
  }

  ghost predicate Builds(w: World, v: World) {
    Onward(w, v) && KeepsRecords(w, v)
  }

  lemma BuildsOn(u: World, w: World, v: World)
    requires Builds(u, w) && Builds(w, v)
    ensures Builds(u, v)
  {
    hide Exists;
  }

  lemma OnwardOn(u: World, w: World, v: World)
    requires Onward(u, w) && Onward(w, v)
    ensures Onward(u, v)
  {
    hide Exists;
  }

  lemma FailBuilds(w: World, f: Fault)
    ensures Builds(w, Fail(w, f).w)
  {
  }

  lemma BindBuilds(w: World, f: Fault)
    ensures Builds(w, BindOwner(w, f).w)
    ensures w.net.AllRecorded() ==> BindOwner(w, f).w.net.AllRecorded()
  {
    hide ReportedWrite, Fail, Onward;
    FailBuilds(w, f);
    Same(w);
    if w.env.cluster.Some? {
      OwnerBuilds(w, AddOwner(w.env.cluster.value), PatchOwner, f);
      OwnerBuilds(w, SetClusterUID(w.env.cluster.value), PatchClusterUID, f);
    }
  }

  lemma OwnerBuilds(w: World, e: Effect, s: Site, f: Fault)
    requires e.AddOwner? || e.SetClusterUID?
    ensures Builds(w, ReportedWrite(w, e, s, f).w)
  {
  }

  lemma TokenBuilds(w: World, f: Fault)
    ensures Builds(w, TokenStage(w, f).w)
  {
  }

  lemma WriteBuilds(w: World, e: Effect, s: Site, f: Fault)
    requires Builds(w, Perform(w, e))
    ensures Builds(w, Write(w, e, s, f).w)
  {
    hide Perform, Builds;
    Same(w);
  }

  ghost predicate Grows(c: Cloud, d: Cloud) {
    forall k, id :: Exists(c, k, id) ==> Exists(d, k, id)
  }

  /** A found or created resource is recorded, or the failure is reported. */
  lemma CallBuilds(w: World, call: Call, e: Effect, s: Site, f: Fault)
    requires Grows(w.cloud, call.cloud)
    requires e.RecordVPC? || e.RecordSubnet? || e.RecordGroup?
    requires (e.RecordVPC? ==> w.net.status.vpc.id == 0) && (e.RecordSubnet? ==> w.net.status.subnet.id == 0) &&
             (e.RecordGroup? ==> w.net.status.group.id == 0)
    ensures Builds(w, Write(w.(cloud := call.cloud), e, s, f).w)
  {
    hide Grows, Exists;
    CallGrows(w, call, f);
    var w1 := w.(cloud := call.cloud);
    WriteBuilds(w1, e, s, f);
    BuildsOn(w, w1, Write(w1, e, s, f).w);
  }

  lemma CallGrows(w: World, call: Call, f: Fault)
    requires Grows(w.cloud, call.cloud)
    ensures var w1 := w.(cloud := call.cloud); Builds(w, w1) && Builds(w, Fail(w1, f).w)
  {
  }

  lemma VPCCallGrows(c: Cloud, id: Id, name: string, f: Fault)
    ensures var call := EnsureVPCCall(c, id, name, f);
            Grows(c, call.cloud) && (id != 0 && call.result.Some? ==> call.result.value.id == id)
  {
    hide Find, VPCsNamed;
  }

  lemma SubnetCallGrows(c: Cloud, id: Id, vpc: Id, name: string, f: Fault)
    ensures var call := EnsureSubnetCall(c, id, vpc, name, f);
            Grows(c, call.cloud) && (id != 0 && call.result.Some? ==> call.result.value.id == id)
  {
    hide Find, SubnetsNamed;
  }

  lemma GroupCallGrows(c: Cloud, id: Id, name: string, f: Fault)
    ensures var call := EnsureGroupCall(c, id, name, f);
            Grows(c, call.cloud) && (id != 0 && call.result.Some? ==> call.result.value.id == id)
  {
    hide Find, GroupsNamed;
  }

  lemma VPCBuilds(w: World, name: string, f: Fault)
    ensures Builds(w, VPCStage(w, name, f).w)
  {
    hide EnsureVPCCall, Write, Fail, Builds, Grows;
    var call := EnsureVPCCall(w.cloud, w.net.status.vpc.id, name, f);
    VPCCallGrows(w.cloud, w.net.status.vpc.id, name, f);
    CallGrows(w, call, f);
    if call.result.Some? && w.net.status.vpc.id != call.result.value.id {
      CallBuilds(w, call, RecordVPC(call.result.value.id), PatchVPC, f);
    }
  }

  lemma SubnetBuilds(w: World, name: string, f: Fault)
    ensures Builds(w, SubnetStage(w, name, f).w)
  {
    hide EnsureSubnetCall, Write, Fail, Builds, Grows;
    var call := EnsureSubnetCall(w.cloud, w.net.status.subnet.id, w.net.status.vpc.id, name, f);
    SubnetCallGrows(w.cloud, w.net.status.subnet.id, w.net.status.vpc.id, name, f);
    CallGrows(w, call, f);
    if call.result.Some? && w.net.status.subnet.id != call.result.value.id {
      CallBuilds(w, call, RecordSubnet(call.result.value.id), PatchSubnet, f);
    }
  }

  lemma GroupBuilds(w: World, name: string, f: Fault)
    ensures Builds(w, GroupStage(w, name, f).w)
  {
    hide EnsureGroupCall, Write, Fail, Builds, Grows;
    var call := EnsureGroupCall(w.cloud, w.net.status.group.id, name, f);
    GroupCallGrows(w.cloud, w.net.status.group.id, name, f);
    CallGrows(w, call, f);
    if call.result.Some? && w.net.status.group.id != call.result.value.id {
      CallBuilds(w, call, RecordGroup(call.result.value.id), PatchGroup, f);
    }
  }

  lemma RulesBuild(w: World, f: Fault)
    ensures Builds(w, RuleStage(w, f).w)
  {
    hide RulesOf;
  }

  lemma ReadyBuilds(w: World, f: Fault)
    ensures Builds(w, ReadyStage(w, f).w)
  {
  }

  lemma OwnGroupBuilds(w: World, name: string, f: Fault)
    ensures Builds(w, OwnGroupStage(w, name, f).w)
  {
    hide GroupStage, RuleStage, Builds;
    GroupBuilds(w, name, f);
    var w1 := GroupStage(w, name, f).w;
    RulesBuild(w1, f);
    BuildsOn(w, w1, RuleStage(w1, f).w);
  }

  lemma ResourcesBuild(w: World, names: ResourceNames, f: Fault)
    ensures Builds(w, ResourcesPass(w, names, f).w)
  {
    hide VPCStage, SubnetStage, OwnGroupStage, ReadyStage, Builds;
    VPCBuilds(w, names.vpc, f);
    var w1 := VPCStage(w, names.vpc, f).w;
    SubnetBuilds(w1, names.subnet, f);
    var w2 := SubnetStage(w1, names.subnet, f).w;
    BuildsOn(w, w1, w2);
    OwnGroupBuilds(w2, names.group, f);
    var w3 := OwnGroupStage(w2, names.group, f).w;
    BuildsOn(w, w2, w3);
    ReadyBuilds(w3, f);
    BuildsOn(w, w3, ReadyStage(w3, f).w);
  }

  lemma ManagedBuilds(w: World, names: ResourceNames, f: Fault)
    ensures Builds(w, ManagedPass(w, names, f).w)
  {
    hide TokenStage, ResourcesPass, Builds;
    TokenBuilds(w, f);
    var w1 := TokenStage(w, f).w;
    ResourcesBuild(w1, names, f);
    BuildsOn(w, w1, ResourcesPass(w1, names, f).w);
  }

  lemma AdoptBuilds(w: World, f: Fault)
    requires w.net.status.token in {"", w.net.uid}
    ensures Onward(w, AdoptPass(w, f).w)
    ensures w.net.AllRecorded() ==> Builds(w, AdoptPass(w, f).w)
  {
    hide RuleStage, ReadyStage, AdoptStage, Onward, KeepsRecords;
    if w.net.AllRecorded() {
      RulesBuild(w, f);
      var w1 := RuleStage(w, f).w;
      ReadyBuilds(w1, f);
      BuildsOn(w, w1, ReadyStage(w1, f).w);
    } else {
      AdoptStageOnward(w, f);
    }
  }

  lemma AdoptStageOnward(w: World, f: Fault)
    requires w.net.status.token in {"", w.net.uid}
    ensures Onward(w, AdoptStage(w, f).w)
  {
    hide Discover, Write, Fail, Onward, KeepsRecords;
    FailBuilds(w, f);
    match Discover(Listed(w.env.machines), w.env.secrets)
    case Refused =>
    case Adopted(vpc, subnet, group) => RecordsOnward(w, AdoptAll(vpc, subnet, group), PatchResources, f);
  }

  lemma RecordsOnward(w: World, e: Effect, s: Site, f: Fault)
    requires e.ObserveAll? || (e.AdoptAll? && w.net.status.token in {"", w.net.uid})
    ensures Onward(w, Write(w, e, s, f).w)
  {
  }

  lemma ObservedGroupBuilds(w: World, names: ResourceNames, f: Fault)
    ensures Builds(w, ObservedGroupStage(w, names, f).w)
  {
    hide TokenStage, OwnGroupStage, Builds, Fail;
    TokenBuilds(w, f);
    var w1 := TokenStage(w, f).w;
    OwnGroupBuilds(w1, names.group, f);
    BuildsOn(w, w1, OwnGroupStage(w1, names.group, f).w);
    FailBuilds(w, f);
    Same(w);
  }

  lemma Same(w: World)
    ensures Builds(w, w)
  {
  }

  lemma ObserveOnward(w: World, names: ResourceNames, f: Fault)
    ensures Onward(w, ObservePass(w, names, f).w)
  {
    hide ObservedGroupStage, Onward, KeepsRecords, Write, Fail;
    FailBuilds(w, f);
    ObservedGroupBuilds(w, names, f);
    var spec, w1 := w.net.spec, ObservedGroupStage(w, names, f).w;
    var e := ObserveAll(spec.vpcID, spec.subnetID, if spec.GroupManaged() then w1.net.status.group.id else spec.groupID);
    RecordsOnward(w1, e, PatchReady, f);
    OnwardOn(w, w1, Write(w1, e, PatchReady, f).w);
  }

  lemma PolicyOnward(w: World, names: ResourceNames, f: Fault)
    requires w.net.status.token in {"", w.net.uid}
    ensures Onward(w, PolicyPass(w, names, f).w)
    ensures w.net.spec.Effective() == Managed || (w.net.spec.policy == Adopt && w.net.AllRecorded()) ==>
              Builds(w, PolicyPass(w, names, f).w)
  {
    hide ManagedPass, AdoptPass, ObservePass, Onward, KeepsRecords, Fail;
    ManagedBuilds(w, names, f);
    AdoptBuilds(w, f);
    ObserveOnward(w, names, f);
    FailBuilds(w, f);
  }

  /** The pass ends by deleting an expired object, or leaves it as live as it was. */
  lemma LiveOnward(w: World, names: ResourceNames, f: Fault)
    requires w.net.status.token in {"", w.net.uid} && Live(w.net)
    ensures var v := LivePass(w, names, f).w; Onward(w, if v.net.deleting then v.(net := v.net.(deleting := false)) else v)
    ensures w.net.spec.Effective() == Managed || (w.net.spec.policy == Adopt && w.net.AllRecorded()) ==>
              KeepsRecords(w, LivePass(w, names, f).w)
  {
    hide BindOwner, PolicyPass, Fail;
    BindBuilds(w, f);
    BindKeeps(w, f);
    var w1 := BindOwner(w, f).w;
    FailBuilds(w1, f);
    PolicyOnward(w1, names, f);
    ExpireOnward(w1, f);
    LiveCases(w, w1, names, f);
  }

  lemma ExpireOnward(w: World, f: Fault)
    requires !w.net.deleting
    ensures var v := Write(w, Expire, ExpireNetwork, f).w;
            Builds(w, v.(net := v.net.(deleting := false)))
  {
  }

  lemma LiveCases(w: World, w1: World, names: ResourceNames, f: Fault)
    requires Builds(w, w1) && w1 == BindOwner(w, f).w && !w.net.deleting
    requires Onward(w1, PolicyPass(w1, names, f).w) && Builds(w1, Fail(w1, f).w)
    requires w.net.spec.Effective() == Managed || (w.net.spec.policy == Adopt && w.net.AllRecorded()) ==>
               Builds(w1, PolicyPass(w1, names, f).w)
    requires var v := Write(w1, Expire, ExpireNetwork, f).w; Builds(w1, v.(net := v.net.(deleting := false)))
    ensures var v := LivePass(w, names, f).w; Onward(w, if v.net.deleting then v.(net := v.net.(deleting := false)) else v)
    ensures w.net.spec.Effective() == Managed || (w.net.spec.policy == Adopt && w.net.AllRecorded()) ==>
              KeepsRecords(w, LivePass(w, names, f).w)
  {
    hide BindOwner, PolicyPass, Fail, Exists;
  }

  /** A pass over an object that is not being deleted deletes nothing, whatever call fails. */
  lemma LivePassOnlyAdds(w: World, f: Fault, k: Kind, id: Id)
    requires Sound(w) && !w.net.deleting && Exists(w.cloud, k, id)
    ensures Exists(Pass(w, f).w.cloud, k, id)
  {
    hide LivePass, DeletePass, Exists, Network.Names;
    if w.net.finalizer {
      LiveOnward(w, w.net.Names(), f);
    }
  }

  /** Failures never undo recorded progress: a record and the token survive every pass. */
  lemma PassKeepsRecords(w: World, f: Fault)
    requires Sound(w) && !w.net.deleting
    requires w.net.spec.Effective() == Managed || (w.net.spec.policy == Adopt && w.net.AllRecorded())
    ensures KeepsRecords(w, Pass(w, f).w)
    ensures w.net.status.token != "" ==> Pass(w, f).w.net.status.token == w.net.status.token
    ensures w.net.finalizer ==> Pass(w, f).w.net.finalizer
  {
    hide LivePass, DeletePass, Exists, Network.Names;
    if w.net.finalizer {
      LiveOnward(w, w.net.Names(), f);
    }
  }

  // ---------------------------------------------------------------- what a delete pass may do

  /** How a pass over an object being deleted leaves the state. */
  lemma DeletePassOutcomes(w: World, f: Fault)
    requires Sound(w) && w.net.deleting
    ensures var v := Pass(w, f).w;
            || v == w || v == Perform(w, LowerReady)
            || (v == Perform(w, Release) && w.net.finalizer && (w.net.spec.policy == Abandon || w.net.NothingManaged()))
            || (&& Cleared(w) && ToDelete(w.net) > 0 && Enabled(w, NextDelete(w.net))
                && (v == Perform(w, NextDelete(w.net)) || v == Perform(Perform(w, NextDelete(w.net)), NextClear(w.net))))
  {
    hide LivePass, Network.Names, ResourceDelete, Perform, DeletePass;
    DeletingIs(w, f);
    if w.net.finalizer && w.net.spec.policy != Abandon && !w.net.NothingManaged() {
      if Cleared(w) {
        ClearedOutcomes(w, f);
      } else {
        UnclearedStops(w, f);
      }
    } else {
      ReleaseOutcomes(w, f);
    }
  }

  lemma DeletingIs(w: World, f: Fault)
    requires w.net.deleting
    ensures Pass(w, f) == Stop(w, Failed) || Pass(w, f) == DeletePass(w, f)
  {
    hide DeletePass, LivePass, Network.Names;
  }

  lemma UnclearedStops(w: World, f: Fault)
    requires Sound(w) && !w.net.NothingManaged() && w.net.deleting && w.net.spec.policy != Abandon
    requires !Cleared(w)
    ensures var v := DeletePass(w, f).w; v == w || v == Perform(w, LowerReady)
  {
    hide ResourceDelete, PortsOn, NoInstances;
    NoPortsNoInstances(w.cloud, w.net.status.subnet.id);
  }

  lemma ReleaseOutcomes(w: World, f: Fault)
    requires w.net.spec.policy == Abandon || w.net.NothingManaged() || !w.net.finalizer
    ensures var v := DeletePass(w, f).w; v == w || (w.net.finalizer && v == Perform(w, Release))
  {
    hide ResourceDelete, PortsOn;
  }

  lemma ClearedOutcomes(w: World, f: Fault)
    requires Sound(w) && Cleared(w) && !w.net.NothingManaged()
    ensures var v := DeletePass(w, f).w;
            || v == w || v == Perform(w, LowerReady)
            || (&& Enabled(w, NextDelete(w.net))
                && (v == Perform(w, NextDelete(w.net)) || v == Perform(Perform(w, NextDelete(w.net)), NextClear(w.net))))
  {
    hide ResourceDelete, DeleteStage, PortsOn, NoInstances, Perform;
    NoPortsNoInstances(w.cloud, w.net.status.subnet.id);
    NextVerified(w, f);
    var ok := NextOk(w);
    DeleteStageCases(w, ok, NextDelete(w.net), NextClear(w.net), f);
  }

  /** The resource to delete next carries its recorded name or is gone. */
  predicate NextOk(w: World) {
    var s := w.net.status;
    if s.group.managed then Verified(s.group, GetGroupCall(w.cloud, s.group.id))
    else if s.subnet.managed then Verified(s.subnet, GetSubnetCall(w.cloud, s.subnet.id))
    else Verified(s.vpc, GetVPCCall(w.cloud, s.vpc.id))
  }

  lemma NextVerified(w: World, f: Fault)
    requires Sound(w) && Cleared(w) && !w.net.NothingManaged()
    ensures ResourceDelete(w, f) == DeleteStage(w, NextOk(w), NextDelete(w.net), NextClear(w.net), f)
    ensures NextOk(w) ==> Enabled(w, NextDelete(w.net))
  {
    hide DeleteStage;
  }

  lemma DeleteStageCases(w: World, ok: bool, d: Effect, c: Effect, f: Fault)
    ensures var v := DeleteStage(w, ok, d, c, f).w;
            v == w || v == Perform(w, LowerReady) || (ok && (v == Perform(w, d) || v == Perform(Perform(w, d), c)))
  {
    if ok { DeleteStageOutcomes(w, d, c, f); }
  }

  /**
   The gates of every delete: when a pass, cut anywhere, removes a resource from the cloud, the
   object was being deleted, no machine was left, no port on a managed subnet, the resource was
   recorded as managed and still carried its recorded name, and nothing that lives in it was
   managed any more.
   */
  lemma DeleteGates(w: World, f: Fault, k: Kind, id: Id)
    requires Sound(w) && Exists(w.cloud, k, id) && !Exists(Pass(w, f).w.cloud, k, id)
    ensures Cleared(w) && Manages(w.net, k, id)
    ensures match k
            case Groups => w.cloud.groups[id].name == w.net.status.group.name
            case Subnets => w.cloud.subnets[id].name == w.net.status.subnet.name && !w.net.status.group.managed
            case VPCs => w.cloud.vpcs[id] == w.net.status.vpc.name && !w.net.status.group.managed && !w.net.status.subnet.managed
  {
    hide Pass, Sound, Cleared, Enabled, NextDelete, NextClear;
    if !w.net.deleting {
      LivePassOnlyAdds(w, f, k, id);
    } else {
      DeletePassOutcomes(w, f);
      var d := Perform(w, NextDelete(w.net));
      ClearKeepsCloud(d, w.net);
      OneDeleted(w, k, id);
    }
  }

  lemma ClearKeepsCloud(w: World, n: Network)
    ensures Perform(w, NextClear(n)).cloud == w.cloud
  {
  }

  lemma OneDeleted(w: World, k: Kind, id: Id)
    ensures Enabled(w, NextDelete(w.net)) && Exists(w.cloud, k, id) && !Exists(Perform(w, NextDelete(w.net)).cloud, k, id) ==>
              && Manages(w.net, k, id)
              && match k
                 case Groups => w.cloud.groups[id].name == w.net.status.group.name
                 case Subnets => w.cloud.subnets[id].name == w.net.status.subnet.name && !w.net.status.group.managed
                 case VPCs => w.cloud.vpcs[id] == w.net.status.vpc.name && !w.net.status.group.managed && !w.net.status.subnet.managed
  {
    hide NoInstances;
  }

  /** In particular no port of an instance is left on a managed subnet when anything is deleted. */
  lemma NoInstanceLosesItsNetwork(w: World, f: Fault, k: Kind, id: Id, owner: string)
    requires Sound(w) && Exists(w.cloud, k, id) && !Exists(Pass(w, f).w.cloud, k, id)
    requires w.net.status.subnet.managed && w.net.status.subnet.id in w.cloud.subnets
    requires owner in w.cloud.subnets[w.net.status.subnet.id].ports
    ensures !(|owner| >= 8 && owner[..8] == "compute:")
  {
    hide Pass, Sound, Exists;
    DeleteGates(w, f, k, id);
    var ports := w.cloud.subnets[w.net.status.subnet.id].ports;
    var i :| 0 <= i < |ports| && ports[i] == owner;
    assert !InstancePort(ports[i]);
  }

  /**
   Exactly when deletion waits: with something managed, a fault-free pass waits if and only if a
   machine is left or an instance is attached to the managed subnet.  No other port holds it up.
   */
  lemma DeletionWaitsExactly(w: World)
    requires Sound(w) && w.net.deleting && w.net.finalizer && w.net.spec.policy != Abandon && !w.net.NothingManaged()
    ensures Pass(w, NO_FAULT).exit.Waiting? <==>
            || |w.env.machines| > 0
            || (&& w.net.status.subnet.managed && w.net.status.subnet.id in w.cloud.subnets
                && exists owner :: owner in w.cloud.subnets[w.net.status.subnet.id].ports
                                   && |owner| >= 8 && owner[..8] == "compute:")
  {
    hide PortsOn, NoInstances, ResourceDelete, LivePass, Network.Names;
    NoPortsNoInstances(w.cloud, w.net.status.subnet.id);
    InstancesAre(w.cloud, w.net.status.subnet.id);
  }

  lemma InstancesAre(c: Cloud, subnet: Id)
    ensures NoInstances(c, subnet) <==>
            !(subnet in c.subnets && exists owner :: owner in c.subnets[subnet].ports && |owner| >= 8 && owner[..8] == "compute:")
  {
    if subnet in c.subnets {
      var ports := c.subnets[subnet].ports;
      if !NoInstances(c, subnet) {
        var i :| 0 <= i < |ports| && InstancePort(ports[i]);
        assert ports[i] in ports;
      }
    }
  }

  /** A pass removes the finalizer only to abandon, or with nothing left to manage. */
  lemma ReleaseMeans(w: World, f: Fault)
    requires Sound(w) && w.net.finalizer && !Pass(w, f).w.net.finalizer
    ensures Enabled(w, Release) && Pass(w, f).w == Perform(w, Release)
  {
    hide Pass, Sound, NoInstances, LivePass, Network.Names;
    if !w.net.deleting {
      LiveKeepsFinalizer(w, f);
    } else {
      DeletePassOutcomes(w, f);
    }
  }

  lemma LiveKeepsFinalizer(w: World, f: Fault)
    requires Sound(w) && Live(w.net)
    ensures Pass(w, f).w.net.finalizer
  {
    hide LivePass, DeletePass, Exists, Network.Names;
    LiveOnward(w, w.net.Names(), f);
  }

  // ---------------------------------------------------------------- theorems about lives

  /** A life in two halves from a new object whose policies never change, Abandon aside. */
  ghost predicate FixedLife(w: World, a: seq<Turn>, b: seq<Turn>, p: Policy, hybrid: bool) {
    && Initial(w) && Fits(w.net.spec, p, hybrid)
    && LegalLife(w, a) && LegalLife(Life(w, a), b)
    && TurnsFit(a, p, hybrid) && TurnsFit(b, p, hybrid)
  }

  lemma FixedLifeIsRun(w: World, a: seq<Turn>, b: seq<Turn>, p: Policy, hybrid: bool) returns (x: seq<Move>, y: seq<Move>)
    requires FixedLife(w, a, b, p, hybrid)
    ensures FixedHistory(w, x, y, p, hybrid) && RunOf(w, x) == Life(w, a) && RunOf(Life(w, a), y) == Life(Life(w, a), b)
    ensures Inv(Life(Life(w, a), b))
  {
    hide Pass, Once, Fits;
    InitialInv(w);
    x := LifeIsRun(w, a);
    y := LifeIsRun(Life(w, a), b);
    FitsCarries(x, a, p, hybrid);
    FitsCarries(y, b, p, hybrid);
  }

  lemma InitialInv(w: World)
    requires Initial(w)
    ensures Inv(w)
  {
  }

  /**
   No orphan, pass by pass: when a pass removes the finalizer under any policy but Abandon,
   no resource the object ever recorded as managed exists.
   */
  lemma ReleasedWithoutOrphans(w: World, a: seq<Turn>, b: seq<Turn>, f: Fault, p: Policy, hybrid: bool, k: Kind, id: Id)
    requires FixedLife(w, a, b, p, hybrid) && Manages(Life(w, a).net, k, id)
    requires var v := Life(Life(w, a), b); v.net.spec.policy != Abandon && v.net.finalizer && !Pass(v, f).w.net.finalizer
    ensures !Exists(Pass(Life(Life(w, a), b), f).w.cloud, k, id)
  {
    hide Pass, LegalLife, Enabled, Inv, FixedLife, FixedHistory;
    var x, y := FixedLifeIsRun(w, a, b, p, hybrid);
    var v := Life(Life(w, a), b);
    InvIsSound(v);
    ReleaseMeans(v, f);
    NoOrphan(w, x, y, p, hybrid, k, id);
  }

  lemma InvIsSound(w: World)
    requires Inv(w)
    ensures Sound(w)
  {
  }

  /**
   Ready is trustworthy, in every state of every life under any edits: Ready at the current
   generation means that all three resources and the group name are recorded, and that the
   applied CIDRs are the spec's wherever the controller keeps the rules.
   */
  lemma ReadyIsTrustworthy(w: World, ts: seq<Turn>)
    requires Initial(w) && LegalLife(w, ts)
    requires var n := Life(w, ts).net; !n.deleting && IsReady(n)
    ensures var n := Life(w, ts).net;
            && n.status.vpc.id != 0 && n.status.subnet.id != 0 && n.status.group.id != 0 && n.status.group.name != ""
            && Complete(n) && (RulesWanted(n.spec) ==> n.status.applied == n.spec.cidrs)
  {
    hide Pass, LegalLife, Life;
    InitialInv(w);
    var ms := LifeIsRun(w, ts);
  }

  /** In every state of every life: managed means recorded, and the token is empty or the UID. */
  lemma StatusIsWellFormed(w: World, ts: seq<Turn>, k: Kind, f: Fault)
    requires Initial(w) && LegalLife(w, ts)
    ensures var v := Life(w, ts);
            && (Recorded(v.net, k).managed ==> Recorded(v.net, k).id != 0)
            && (v.net.status.token == "" || v.net.status.token == w.net.uid)
            && !Pass(v, f).exit.AllDeleted?
  {
    hide Pass, LegalLife, Life;
    InitialInv(w);
    var ms := LifeIsRun(w, ts);
    IdentityRun(w, ms);
    NeverTrailing(Life(w, ts), f);
  }

  lemma NeverTrailing(w: World, f: Fault)
    requires Sound(w)
    ensures !Pass(w, f).exit.AllDeleted?
  {
    hide DeletePass, LivePass, Network.Names;
    TrailingExitUnreachable(w, f);
  }

  // ---------------------------------------------------------------- provenance

  /**
   Whatever policies were edited, a VPC or a subnet that a pass deletes was claimed earlier in the
   life, under a name of the object's own or by adoption, and nothing was ever observed.
   */
  lemma PassDeletesOnlyClaimed(w: World, ts: seq<Turn>, f: Fault, k: Kind, id: Id) returns (ms: seq<Move>)
    requires Initial(w) && LegalLife(w, ts) && k != Groups
    requires Exists(Life(w, ts).cloud, k, id) && !Exists(Pass(Life(w, ts), f).w.cloud, k, id)
    ensures LegalRun(w, ms) && RunOf(w, ms) == Life(w, ts) && Claimed(ms, k, id) && NeverObserved(ms)
  {
    hide Pass, LegalLife, Life, Initial, Cleared, Inv, Claimed, NeverObserved;
    InitialInv(w);
    ms := LifeIsRun(w, ts);
    InvIsSound(Life(w, ts));
    DeleteGates(Life(w, ts), f, k, id);
    DeletesOnlyClaimed(w, ms, k);
  }

  predicate GroupPolicyKept(ts: seq<Turn>, managed: bool) {
    forall i :: 0 <= i < |ts| && ts[i].Other? && ts[i].move.Edit? ==> ts[i].move.spec.GroupManaged() == managed
  }

  /** The same for security groups, as long as the group policy is never switched. */
  lemma PassDeletesOnlyClaimedGroups(w: World, ts: seq<Turn>, f: Fault, id: Id, managed: bool) returns (ms: seq<Move>)
    requires Initial(w) && LegalLife(w, ts) && w.net.spec.GroupManaged() == managed && GroupPolicyKept(ts, managed)
    requires Exists(Life(w, ts).cloud, Groups, id) && !Exists(Pass(Life(w, ts), f).w.cloud, Groups, id)
    ensures LegalRun(w, ms) && RunOf(w, ms) == Life(w, ts) && Claimed(ms, Groups, id) && (!managed ==> NeverObserved(ms))
  {
    hide Pass, LegalLife, Life, Initial, Cleared, Inv, Claimed, NeverObserved;
    InitialInv(w);
    ms := LifeIsRun(w, ts);
    InvIsSound(Life(w, ts));
    DeleteGates(Life(w, ts), f, Groups, id);
    forall i | 0 <= i < |ms| && ms[i].Edit? ensures ms[i].spec.GroupManaged() == managed {
      var j :| 0 <= j < |ts| && ts[j] == Other(ms[i]);
    }
    GroupDeletesOnlyClaimed(w, ms, managed);
  }

  /** No pass starts while the object is exposed: a condition on the object before each pass. */
  ghost predicate NeverExposed(w: World, ts: seq<Turn>) {
    ts != [] ==>
      NeverExposed(w, ts[..|ts| - 1]) && (ts[|ts| - 1].Reconcile? ==> !Exposed(Life(w, ts[..|ts| - 1]).net))
  }

  lemma {:induction false} UnexposedLifeIsRun(w: World, ts: seq<Turn>) returns (ms: seq<Move>)
    requires Inv(w) && LegalLife(w, ts) && NeverExposed(w, ts)
    ensures LegalRun(w, ms) && RunOf(w, ms) == Life(w, ts) && Inv(Life(w, ts)) && SeizesOnlyClaimed(w, ms)
  {
    hide Pass, Inv, Legal, After, Exposed, Seizes, Claimed;
    if ts == [] {
      ms := [];
    } else {
      var pre, t := ts[..|ts| - 1], ts[|ts| - 1];
      var before := UnexposedLifeIsRun(w, pre);
      var v := Life(w, pre);
      var more: seq<Move>;
      match t {
        case Reconcile(f) =>
          more := PassSteps(v, f);
          UnexposedRun(w, before, more);
        case Other(m) =>
          OneMove(v, m);
          more := [m];
          assert (before + [m])[..|before|] == before;
          OthersSeizeNothing(v, m);
      }
      Append(w, before, more);
      ms := before + more;
      InvRun(w, ms);
    }
  }

  lemma OthersSeizeNothing(w: World, m: Move)
    requires !m.Do?
    ensures !Seizes(w, m)
  {
  }

  /**
   Under any edits of any policy, a group that a pass deletes was claimed earlier in the life, as
   long as no pass ever started with a hybrid spec and an unmanaged group on record.
   */
  lemma PassDeletesClaimedUnlessExposed(w: World, ts: seq<Turn>, f: Fault, id: Id) returns (ms: seq<Move>)
    requires Initial(w) && LegalLife(w, ts) && NeverExposed(w, ts)
    requires Exists(Life(w, ts).cloud, Groups, id) && !Exists(Pass(Life(w, ts), f).w.cloud, Groups, id)
    ensures LegalRun(w, ms) && RunOf(w, ms) == Life(w, ts) && Claimed(ms, Groups, id)
  {
    hide Pass, LegalLife, Life, Initial, Cleared, Inv, Claimed, NeverExposed, SeizesOnlyClaimed;
    InitialInv(w);
    ms := UnexposedLifeIsRun(w, ts);
    InvIsSound(Life(w, ts));
    DeleteGates(Life(w, ts), f, Groups, id);
    GroupDeletesClaimedUnlessSeized(w, ms);
  }

  // ---------------------------------------------------------------- exactly-once creation

  /**
   In every state of every life at most one VPC, one subnet and one group exist under a name of
   this object's, however often create responses and status patches were lost.
   */
  lemma ExactlyOnce(w: World, ts: seq<Turn>, name: string)
    requires Initial(w) && LegalLife(w, ts) && OwnName(ShortToken(w.net.uid), name)
    ensures var c := Life(w, ts).cloud;
            && (forall i, j :: i in VPCsNamed(c, name) && j in VPCsNamed(c, name) ==> i == j)
            && (forall u, v, i, j :: i in SubnetsNamed(c, u, name) && j in SubnetsNamed(c, v, name) ==> i == j)
            && (forall i, j :: i in GroupsNamed(c, name) && j in GroupsNamed(c, name) ==> i == j)
  {
    hide Pass, LegalLife, Life, Sound, ReadyMeans;
    InitialInv(w);
    var ms := LifeIsRun(w, ts);
    IdentityRun(w, ms);
  }

  /** A lone resource under the name is what a lookup finds. */
  lemma FindsTheOne(ids: set<Id>, id: Id)
    requires id in ids && forall i :: i in ids ==> i == id
    ensures Find(ids) == One(id)
  {
    assert ids == {id};
  }
}
