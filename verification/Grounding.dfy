/**
 What the status says is true of the cloud: in every life in which nobody else deletes, renames or
 moves what is on record, the recorded resources exist under their recorded names, and a Managed
 subnet lies in the Managed VPC.  So machine configs lead machines to a real network.
 */
module Grounding {
  import opened Faults
  import opened Names
  import opened Rules
  import opened Sorting
  import opened Adoption
  import opened State
  import opened Protocol
  import opened Invariants
  import opened Runs
  import opened Reconcile
  import opened Refinement
  import opened Progress
  import opened Lifecycle
  import opened Isolation
  import opened Bootstrap

  /** The recorded resource of a live object exists under its recorded name. */
  ghost predicate Real(w: World, k: Kind) {
    var r := Recorded(w.net, k);
    !w.net.deleting && r.id != 0 ==> Exists(w.cloud, k, r.id) && NameIn(w.cloud, k, r.id) == r.name
  }

  ghost predicate AllReal(w: World) {
    Real(w, VPCs) && Real(w, Subnets) && Real(w, Groups)
  }

  /** The recorded subnet of a live object lies in the recorded VPC. */
  predicate Nested(w: World) {
    var s := w.net.status;
    !w.net.deleting && s.subnet.id != 0 && s.subnet.id in w.cloud.subnets ==>
      s.vpc.id != 0 && w.cloud.subnets[s.subnet.id].vpc == s.vpc.id
  }

  // ---------------------------------------------------------------- effects

  lemma RealCreates(w: World, e: Effect)
    requires Sound(w) && AllReal(w) && Enabled(w, e) && Creates(e)
    ensures AllReal(Perform(w, e))
  {
    hide OwnName, GoodRules;
  }

  lemma RealRecords(w: World, e: Effect)
    requires AllReal(w) && Enabled(w, e) && Records(e)
    ensures AllReal(Perform(w, e))
  {
    hide OwnName, Discover, Tag;
  }

  lemma RealOthers(w: World, e: Effect)
    requires AllReal(w) && Enabled(w, e) && (Paperwork(e) || e.EditRules?)
    ensures AllReal(Perform(w, e))
  {
    hide GoodRules;
  }

  lemma RealDeletes(w: World, e: Effect)
    requires Enabled(w, e) && Deletes(e)
    ensures AllReal(Perform(w, e)) && Nested(Perform(w, e))
  {
    hide NoInstances;
  }

  lemma RealEffect(w: World, e: Effect)
    requires Sound(w) && AllReal(w) && Enabled(w, e)
    ensures AllReal(Perform(w, e))
  {
    hide AllReal, Enabled, Perform, Sound;
    if Creates(e) { RealCreates(w, e); }
    else if Records(e) { RealRecords(w, e); }
    else if Deletes(e) { RealDeletes(w, e); }
    else { RealOthers(w, e); }
  }

  lemma NestedCreates(w: World, e: Effect)
    requires Sound(w) && Nested(w) && Enabled(w, e) && Creates(e)
    ensures Nested(Perform(w, e))
  {
    hide OwnName, GoodRules;
  }

  lemma NestedRecords(w: World, e: Effect)
    requires Nested(w) && Enabled(w, e) && Records(e) && Fits(w.net.spec, Managed, false)
    requires w.net.status.subnet.id != 0 ==> w.net.status.vpc.id != 0
    ensures Nested(Perform(w, e))
  {
    hide OwnName, Discover, Tag;
  }

  lemma NestedOthers(w: World, e: Effect)
    requires Nested(w) && Enabled(w, e) && (Paperwork(e) || e.EditRules?)
    ensures Nested(Perform(w, e))
  {
    hide GoodRules;
  }

  lemma NestedEffect(w: World, e: Effect)
    requires Sound(w) && AllReal(w) && Nested(w) && Enabled(w, e) && Fits(w.net.spec, Managed, false)
    ensures Nested(Perform(w, e))
  {
    hide Enabled, Perform, Sound, Fits;
    if Creates(e) { NestedCreates(w, e); }
    else if Records(e) { RecordsAreLive(w, e); NestedRecords(w, e); }
    else if Deletes(e) { RealDeletes(w, e); }
    else { NestedOthers(w, e); }
  }

  lemma RecordsAreLive(w: World, e: Effect)
    requires Enabled(w, e) && Records(e)
    ensures !w.net.deleting
  {
  }

  // ---------------------------------------------------------------- lives

  lemma {:induction false} RealRun(w: World, ms: seq<Move>)
    requires Inv(w) && LegalRun(w, ms) && forall i :: 0 <= i < |ms| ==> ms[i].Do?
    requires AllReal(w)
    ensures AllReal(RunOf(w, ms))
    ensures Nested(w) && Fits(w.net.spec, Managed, false) ==> Nested(RunOf(w, ms))
  {
    hide Inv, Enabled, Perform, AllReal, Nested, Fits;
    if ms != [] {
      var pre, e := ms[..|ms| - 1], ms[|ms| - 1].effect;
      RealRun(w, pre);
      InvRun(w, pre);
      SpecRun(w, pre);
      var v := RunOf(w, pre);
      InvIsSound(v);
      RealEffect(v, e);
      if Nested(v) && Fits(v.net.spec, Managed, false) {
        NestedEffect(v, e);
      }
    }
  }

  /** Others leave what is on record where it is and call it what it was called. */
  ghost predicate Gentle(w: World, d: Cloud) {
    && (forall k :: var id := Recorded(w.net, k).id;
                    Exists(w.cloud, k, id) ==> Exists(d, k, id) && NameIn(d, k, id) == NameIn(w.cloud, k, id))
    && var id := w.net.status.subnet.id;
       id in w.cloud.subnets && id in d.subnets ==> d.subnets[id].vpc == w.cloud.subnets[id].vpc
  }

  ghost predicate GentleLife(w: World, ts: seq<Turn>) {
    ts != [] ==>
      var pre, t := ts[..|ts| - 1], ts[|ts| - 1];
      GentleLife(w, pre) && (t.Other? && t.move.Outside? ==> Gentle(Life(w, pre), t.move.cloud))
  }

  lemma RealMove(w: World, m: Move)
    requires AllReal(w) && !m.Do? && (m.Outside? ==> Gentle(w, m.cloud))
    ensures AllReal(After(w, m)) && (Nested(w) ==> Nested(After(w, m)))
  {
    var v := After(w, m);
    forall k ensures Real(v, k) {
      assert Real(w, k);
    }
  }

  lemma {:induction false} RealLife(w: World, ts: seq<Turn>)
    requires Inv(w) && LegalLife(w, ts) && GentleLife(w, ts) && AllReal(w)
    ensures AllReal(Life(w, ts))
    ensures Nested(w) && Fits(w.net.spec, Managed, false) && TurnsFit(ts, Managed, false) ==>
              Nested(Life(w, ts)) && Fits(Life(w, ts).net.spec, Managed, false)
  {
    hide Pass, Inv, Legal, After, AllReal, Nested, Fits, Gentle;
    if ts != [] {
      var pre, t := ts[..|ts| - 1], ts[|ts| - 1];
      RealLife(w, pre);
      var ms := LifeIsRun(w, pre);
      var v := Life(w, pre);
      match t {
        case Reconcile(f) =>
          var ns := PassSteps(v, f);
          RealRun(v, ns);
          SpecRun(v, ns);
        case Other(m) =>
          RealMove(v, m);
          FitsMove(v, m);
      }
      assert TurnsFit(ts, Managed, false) ==> TurnsFit(pre, Managed, false) by {
        assert forall i :: 0 <= i < |pre| ==> pre[i] == ts[i];
      }
    }
  }

  lemma FitsMove(w: World, m: Move)
    requires !m.Do?
    ensures After(w, m).net.spec == if m.Edit? then m.spec else w.net.spec
  {
  }

  /**
   The status is true: in every life, under any edits, whatever fails, each resource on record of a
   live object exists in the cloud under its recorded name.
   */
  lemma RecordsAreTrue(w: World, ts: seq<Turn>, k: Kind)
    requires Initial(w) && LegalLife(w, ts) && GentleLife(w, ts)
    requires var n := Life(w, ts).net; !n.deleting && Recorded(n, k).id != 0
    ensures var v := Life(w, ts);
            Exists(v.cloud, k, Recorded(v.net, k).id) && NameIn(v.cloud, k, Recorded(v.net, k).id) == Recorded(v.net, k).name
  {
    hide Pass, LegalLife, Life, GentleLife, Inv;
    InitialInv(w);
    RealLife(w, ts);
    assert Real(Life(w, ts), k);
  }

  /**
   Machine configs lead to a real network: in every life of a Managed object, a config that uses what
   is on record when the network may be propagated names a VPC that exists under that name, a subnet
   of that very VPC that exists under that name, and the name of the recorded group.
   */
  lemma ConfigsLeadToTheNetwork(w: World, ts: seq<Turn>, c: Config)
    requires Initial(w) && LegalLife(w, ts) && GentleLife(w, ts)
    requires Fits(w.net.spec, Managed, false) && TurnsFit(ts, Managed, false)
    requires var n := Life(w, ts).net;
             !n.deleting && Propagates(n) && Uses(c, n.status.vpc, n.status.subnet, n.status.group)
    ensures var v := Life(w, ts);
            && "vpcId" in c && "subnetId" in c && c["vpcId"].Ident? && c["subnetId"].Ident?
            && c["vpcId"].id in v.cloud.vpcs && HasText(c, "vpcName", v.cloud.vpcs[c["vpcId"].id])
            && c["subnetId"].id in v.cloud.subnets && HasText(c, "subnetName", v.cloud.subnets[c["subnetId"].id].name)
            && v.cloud.subnets[c["subnetId"].id].vpc == c["vpcId"].id
            && v.net.status.group.id in v.cloud.groups && HasText(c, "secGroups", v.cloud.groups[v.net.status.group.id].name)
  {
    hide Pass, LegalLife, Life, GentleLife, Inv, Fits, TurnsFit;
    InitialInv(w);
    InitialIsReal(w);
    RealLife(w, ts);
  }

  lemma InitialIsReal(w: World)
    requires Initial(w)
    ensures AllReal(w) && Nested(w)
  {
  }

  // ---------------------------------------------------------------- what each policy records

  /** An Observe pass that ends well has recorded exactly what the spec names, and manages only its own group. */
  lemma ObservedIsWhatTheSpecNames(w: World, f: Fault)
    requires Inv(w) && Pass(w, f).exit.Steady? && w.net.spec.policy == Observe
    ensures var v := Pass(w, f).w;
            && v.net.status.vpc.id == w.net.spec.vpcID && !v.net.status.vpc.managed
            && v.net.status.subnet.id == w.net.spec.subnetID && !v.net.status.subnet.managed
            && (w.net.spec.groupPolicy != Managed ==> v.net.status.group.id == w.net.spec.groupID && !v.net.status.group.managed)
            && (w.net.spec.groupPolicy == Managed ==> v.net.status.group.managed)
            && GetVPCCall(v.cloud, v.net.status.vpc.id) == Some(Resource(v.net.status.vpc.id, v.net.status.vpc.name))
            && GetSubnetCall(v.cloud, v.net.status.subnet.id) == Some(Resource(v.net.status.subnet.id, v.net.status.subnet.name))
            && GetGroupCall(v.cloud, v.net.status.group.id) == Some(Resource(v.net.status.group.id, v.net.status.group.name))
  {
    hide Pass, Network.Names, Once, ReadyMeans;
    SteadyIsLive(w, f);
    GroupIsNamed(w.net);
    LiveObserves(w, w.net.Names(), f);
  }

  lemma LiveObserves(w: World, names: ResourceNames, f: Fault)
    requires w.cloud.Valid() && w.net.uid != "" && names.group != "" && w.net.spec.policy == Observe && LivePass(w, names, f).exit.Steady?
    ensures Observed(w.net.spec, LivePass(w, names, f).w)
  {
    hide BindOwner, ObservePass, ManagedPass, AdoptPass, Observed;
    BindKeeps(w, f);
    PassObserves(BindOwner(w, f).w, names, f);
  }

  /** The status says what the spec names and what the cloud calls it. */
  predicate Observed(spec: Spec, v: World) {
    var s := v.net.status;
    && s.vpc.id == spec.vpcID && !s.vpc.managed && s.subnet.id == spec.subnetID && !s.subnet.managed
    && (spec.groupPolicy != Managed ==> s.group.id == spec.groupID && !s.group.managed)
    && (spec.groupPolicy == Managed ==> s.group.managed)
    && GetVPCCall(v.cloud, s.vpc.id) == Some(Resource(s.vpc.id, s.vpc.name))
    && GetSubnetCall(v.cloud, s.subnet.id) == Some(Resource(s.subnet.id, s.subnet.name))
    && GetGroupCall(v.cloud, s.group.id) == Some(Resource(s.group.id, s.group.name))
  }

  lemma PassObserves(w: World, names: ResourceNames, f: Fault)
    requires w.cloud.Valid() && w.net.uid != "" && names.group != "" && ObservePass(w, names, f).exit.Steady?
    ensures Observed(w.net.spec, ObservePass(w, names, f).w)
  {
    hide ObservedGroupStage, AllWanted, Cloud.Valid;
    ObserveEnds(w, names, f);
    var g, spec := ObservedGroupStage(w, names, f).w, w.net.spec;
    ObserveWrites(g, if spec.GroupManaged() then g.net.status.group.id else spec.groupID);
  }

  lemma ObserveWrites(g: World, group: Id)
    requires g.net.spec.vpcID in g.cloud.vpcs && g.net.spec.subnetID in g.cloud.subnets && group in g.cloud.groups
    requires group == if g.net.spec.GroupManaged() then g.net.status.group.id else g.net.spec.groupID
    ensures Observed(g.net.spec, Perform(g, ObserveAll(g.net.spec.vpcID, g.net.spec.subnetID, group)))
  {
  }

  /** An adopting pass records, as managed, the driver-made network of the earliest machine under its names in the cloud. */
  lemma AdoptedIsWhatTheMachineMade(w: World, m: Machine)
    requires Live(w.net) && ClusterKnown(w) && !w.net.AllRecorded() && w.net.spec.policy == Adopt && CanAdopt(w)
    requires Earliest(m, Listed(w.env.machines), w.env.secrets)
    ensures var s, v := w.env.secrets[m.name], Pass(w, NO_FAULT).w;
            && s.State? && s.vpc in w.cloud.vpcs && s.subnet in w.cloud.subnets && s.group in w.cloud.groups
            && v.net.status.vpc == ResourceStatus(s.vpc, w.cloud.vpcs[s.vpc], true)
            && v.net.status.subnet == ResourceStatus(s.subnet, w.cloud.subnets[s.subnet].name, true)
            && v.net.status.group == ResourceStatus(s.group, w.cloud.groups[s.group].name, true)
            && v.cloud == w.cloud
  {
    hide Pass, Network.Names, Discover, Before, Oldest, BindOwner, ClusterKnown, Perform;
    OldestIsEarliest(m, Listed(w.env.machines), w.env.secrets);
    ChoiceIsOldest(m, Listed(w.env.machines), w.env.secrets);
    LiveIs(w);
    AdoptAdopts(w, w.net.Names());
    BindKeeps(w, NO_FAULT);
    var s := w.env.secrets[m.name];
    AdoptWrites(BindOwner(w, NO_FAULT).w, s.vpc, s.subnet, s.group);
  }

  lemma AdoptWrites(w: World, vpc: Id, subnet: Id, group: Id)
    requires vpc in w.cloud.vpcs && subnet in w.cloud.subnets && group in w.cloud.groups
    ensures var v := Perform(w, AdoptAll(vpc, subnet, group));
            && v.net.status.vpc == ResourceStatus(vpc, w.cloud.vpcs[vpc], true)
            && v.net.status.subnet == ResourceStatus(subnet, w.cloud.subnets[subnet].name, true)
            && v.net.status.group == ResourceStatus(group, w.cloud.groups[group].name, true)
            && v.cloud == w.cloud
  {
  }
}
