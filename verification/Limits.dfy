/**
 Where the guarantees end.  Each hypothesis of the theorems about lives is needed: without it
 the code does what the theorem excludes, for every state of the kind described.
 */
module Limits {
  import opened Faults
  import opened Rules
  import opened RuleProofs
  import opened Adoption
  import opened State
  import opened Protocol
  import opened Invariants
  import opened Runs
  import opened Provenance
  import opened Reconcile
  import opened Progress
  import opened Lifecycle
  import opened Access

  /** Exactly when an effect makes the object manage a group that it did not claim. */
  lemma OnlyHybridObservationSeizes(w: World, e: Effect)
    requires Sound(w) && Enabled(w, e)
    ensures var v := Perform(w, e);
            (v.net.status.group.managed && !w.net.status.group.managed && !Claims(Do(e), Groups, v.net.status.group.id))
            <==> Seizes(w, Do(e))
  {
    hide Enabled, Perform, Sound;
    GroupSource(w, e);
  }

  /** The spec of an Observe network whose three resources exist. */
  predicate Observable(s: Spec, c: Cloud) {
    s.policy == Observe && s.vpcID in c.vpcs && s.subnetID in c.subnets && s.groupID in c.groups
  }

  /** Nothing interferes: no cluster, no expiry, no machines. */
  predicate Quiet(e: Env) {
    e.cluster.None? && !e.expired && |e.machines| == 0
  }

  /** A pass, an edit or a delete request: always possible. */
  predicate Plain(t: Turn) {
    t.Reconcile? || t.move.Edit? || t.move.RequestDelete?
  }

  lemma OneTurn(w: World, ts: seq<Turn>, t: Turn)
    requires LegalLife(w, ts) && Plain(t)
    ensures LegalLife(w, ts + [t]) && Life(w, ts + [t]) == AfterTurn(Life(w, ts), t)
  {
    hide AfterTurn;
    assert (ts + [t])[..|ts|] == ts;
  }

  lemma ThreeTurns(w: World, a: Turn, b: Turn, c: Turn)
    requires Plain(a) && Plain(b) && Plain(c)
    ensures LegalLife(w, [] + [a] + [b] + [c])
    ensures Life(w, [] + [a] + [b] + [c]) == AfterTurn(AfterTurn(AfterTurn(w, a), b), c)
  {
    hide AfterTurn, Plain;
    OneTurn(w, [], a);
    OneTurn(w, [] + [a], b);
    OneTurn(w, [] + [a] + [b], c);
  }

  lemma FourTurns(w: World, a: Turn, b: Turn, c: Turn, d: Turn)
    requires Plain(a) && Plain(b) && Plain(c) && Plain(d)
    ensures LegalLife(w, [] + [a] + [b] + [c] + [d])
    ensures Life(w, [] + [a] + [b] + [c] + [d]) == AfterTurn(AfterTurn(AfterTurn(AfterTurn(w, a), b), c), d)
  {
    hide AfterTurn, Plain, LegalLife, Life;
    ThreeTurns(w, a, b, c);
    OneTurn(w, [] + [a] + [b] + [c], d);
  }

  const PASS := Reconcile(NO_FAULT)

  lemma FirstPass(w: World)
    requires !w.net.deleting && !w.net.finalizer
    ensures AfterTurn(w, PASS) == Perform(w, AddFinalizer)
  {
    hide LivePass, DeletePass, Network.Names;
  }

  lemma QuietPass(w: World)
    requires Live(w.net) && Quiet(w.env)
    ensures AfterTurn(w, PASS) == PolicyPass(w, w.net.Names(), NO_FAULT).w
  {
    hide PolicyPass, DeletePass, Network.Names;
  }

  /** A pass that only observes records what the spec names. */
  lemma ObservePassRecords(w: World)
    requires Live(w.net) && Quiet(w.env) && Observable(w.net.spec, w.cloud) && !w.net.spec.GroupManaged()
    ensures AfterTurn(w, PASS) == Perform(w, ObserveAll(w.net.spec.vpcID, w.net.spec.subnetID, w.net.spec.groupID))
  {
    hide AfterTurn, Network.Names;
    QuietPass(w);
    PlainObserve(w, w.net.Names());
  }

  lemma PlainObserve(w: World, names: ResourceNames)
    requires Observable(w.net.spec, w.cloud) && !w.net.spec.GroupManaged()
    ensures PolicyPass(w, names, NO_FAULT).w == Perform(w, ObserveAll(w.net.spec.vpcID, w.net.spec.subnetID, w.net.spec.groupID))
  {
  }

  /** The spec of a hybrid network, as the API server admits it, whose VPC and subnet exist. */
  predicate Hybrid(s: Spec, c: Cloud) {
    && s.policy == Observe && s.groupPolicy == Managed && s.vpcID in c.vpcs && s.subnetID in c.subnets
    && s.groupID == 0 && s.groupName != "" && |s.cidrs| > 0
  }

  /** A hybrid pass that finds a group on record keeps it and marks it managed. */
  lemma HybridPassSeizes(w: World)
    requires Inv(w) && Live(w.net) && Quiet(w.env) && Hybrid(w.net.spec, w.cloud)
    requires w.net.status.group.id in w.cloud.groups
    ensures var v, id := AfterTurn(w, PASS), w.net.status.group.id;
            && v.env == w.env && v.net.spec == w.net.spec && Live(v.net) && Inv(v)
            && !v.net.status.vpc.managed && !v.net.status.subnet.managed
            && id in v.cloud.groups && v.net.status.group == ResourceStatus(id, v.cloud.groups[id].name, true)
  {
    hide Network.Names, Inv, Pass;
    PassKeepsInv(w, NO_FAULT);
    QuietPass(w);
    InvIsSound(w);
    HybridObserve(w, w.net.Names());
  }

  lemma HybridObserve(w: World, names: ResourceNames)
    requires Sound(w) && Live(w.net) && Hybrid(w.net.spec, w.cloud) && w.net.status.group.id in w.cloud.groups
    ensures var v, id := PolicyPass(w, names, NO_FAULT).w, w.net.status.group.id;
            && v.env == w.env && v.net.spec == w.net.spec && Live(v.net)
            && !v.net.status.vpc.managed && !v.net.status.subnet.managed
            && id in v.cloud.groups && v.net.status.group == ResourceStatus(id, v.cloud.groups[id].name, true)
  {
    hide Pass, RuleStage, ManagedPass, AdoptPass, OwnGroupStage, TokenStage;
    KeptGroup(w, names.group);
  }

  lemma KeptGroup(w: World, name: string)
    requires Sound(w) && w.net.status.group.id != 0 && w.net.status.group.id in w.cloud.groups
    ensures var w1 := TokenStage(w, NO_FAULT).w;
            var r := OwnGroupStage(w1, name, NO_FAULT);
            && TokenStage(w, NO_FAULT).Go? && r.Go? && r.w.net == w1.net && r.w.env == w.env
            && r.w.cloud.vpcs == w.cloud.vpcs && r.w.cloud.subnets == w.cloud.subnets
            && w.net.status.group.id in r.w.cloud.groups
            && w1.net.status.group == w.net.status.group && w1.net.spec == w.net.spec && Live(w1.net) == Live(w.net)
  {
    hide RuleStage, Find, AllWanted;
    var w1 := TokenStage(w, NO_FAULT).w;
    RulesReached(w1);
    RulesMet(w1, NO_FAULT);
  }

  /**
   The condition that no pass starts exposed is needed: from every exposed state whose resources
   exist, one pass and a deletion delete the group on record.
   */
  lemma ExposedGroupIsDeleted(w: World)
    requires Inv(w) && Live(w.net) && Quiet(w.env) && Hybrid(w.net.spec, w.cloud)
    requires Exposed(w.net) && w.net.status.group.id in w.cloud.groups
    ensures var ts := [] + [PASS] + [Other(RequestDelete)] + [PASS];
            LegalLife(w, ts) && w.net.status.group.id !in Life(w, ts).cloud.groups
  {
    hide Pass, LegalLife, Life, Sound, Inv;
    HybridPassSeizes(w);
    var w1 := AfterTurn(w, PASS);
    var w2 := After(w1, RequestDelete);
    SeizedIsDeleted(w1, w2);
    ThreeTurns(w, PASS, Other(RequestDelete), PASS);
  }

  /** The moves of a life in which someone hands an observed group over to the controller. */
  function HandOver(spec: Spec): seq<Turn> {
    [] + [PASS] + [PASS] + [Other(Edit(spec))] + [PASS] + [Other(RequestDelete)] + [PASS]
  }

  /**
   The hypothesis that the group policy is not switched is needed: for every new Observe network
   and every edit to a hybrid spec that the API server admits, the controller manages, and on
   deletion deletes, the group that it had observed, although the new spec no longer names it.
   */
  lemma ObservedGroupIsDeleted(w: World, spec: Spec)
    requires Initial(w) && Quiet(w.env) && Observable(w.net.spec, w.cloud) && !w.net.spec.GroupManaged()
    requires Hybrid(spec, w.cloud)
    ensures LegalLife(w, HandOver(spec)) && w.net.spec.groupID !in Life(w, HandOver(spec)).cloud.groups
  {
    hide Pass, Initial, LegalLife, Life, AfterTurn, Sound, Inv, HandOver;
    InitialFacts(w);
    var w1 := Perform(w, AddFinalizer);
    FirstPass(w);
    var w2 := Perform(w1, ObserveAll(w.net.spec.vpcID, w.net.spec.subnetID, w.net.spec.groupID));
    ObservePassRecords(w1);
    var w3 := After(w2, Edit(spec));
    ThreeKeepInv(w, w1, w2, w3, spec);
    HybridPassSeizes(w3);
    var w4 := AfterTurn(w3, PASS);
    var w5 := After(w4, RequestDelete);
    SeizedIsDeleted(w4, w5);
    HandOverIs(w, spec);
  }

  lemma InitialFacts(w: World)
    requires Initial(w)
    ensures Inv(w) && !w.net.deleting && !w.net.finalizer && w.net.status.group.id == 0
  {
  }

  lemma ThreeKeepInv(w: World, w1: World, w2: World, w3: World, spec: Spec)
    requires Inv(w) && !w.net.deleting && Observable(w.net.spec, w.cloud) && !w.net.spec.GroupManaged()
    requires w1 == Perform(w, AddFinalizer)
    requires w2 == Perform(w1, ObserveAll(w.net.spec.vpcID, w.net.spec.subnetID, w.net.spec.groupID))
    requires w3 == After(w2, Edit(spec))
    ensures Inv(w3)
  {
    hide Inv;
    InvStep(w, Do(AddFinalizer));
    InvStep(w1, Do(ObserveAll(w.net.spec.vpcID, w.net.spec.subnetID, w.net.spec.groupID)));
    InvStep(w2, Edit(spec));
  }

  lemma SeizedIsDeleted(w4: World, w5: World)
    requires Inv(w4) && Live(w4.net) && Quiet(w4.env) && w4.net.spec.policy == Observe
    requires !w4.net.status.vpc.managed && !w4.net.status.subnet.managed && w4.net.status.group.managed
    requires w4.net.status.group.id in w4.cloud.groups && w4.cloud.groups[w4.net.status.group.id].name == w4.net.status.group.name
    requires w5 == After(w4, RequestDelete)
    ensures w4.net.status.group.id !in AfterTurn(w5, PASS).cloud.groups
  {
    hide Pass, Once, ReadyMeans, DeleteStage;
    InvStep(w4, RequestDelete);
    assert Deletable(w5);
    DeletePassIs(w5, NO_FAULT);
    DeleteStageOutcomes(w5, DeleteGroup, ClearGroup, NO_FAULT);
  }

  lemma HandOverIs(w: World, spec: Spec)
    ensures LegalLife(w, HandOver(spec))
    ensures Life(w, HandOver(spec)) ==
            AfterTurn(After(AfterTurn(After(AfterTurn(AfterTurn(w, PASS), PASS), Edit(spec)), PASS), RequestDelete), PASS)
  {
    hide Pass, LegalLife, Life;
    FourTurns(w, PASS, PASS, Other(Edit(spec)), PASS);
    OneTurn(w, [] + [PASS] + [PASS] + [Other(Edit(spec))] + [PASS], Other(RequestDelete));
    OneTurn(w, [] + [PASS] + [PASS] + [Other(Edit(spec))] + [PASS] + [Other(RequestDelete)], PASS);
  }

  /** The moves of a life in which someone switches the network to Observe and deletes it. */
  function SwitchAway(spec: Spec): seq<Turn> {
    [] + [Other(Edit(spec))] + [PASS] + [Other(RequestDelete)] + [PASS]
  }

  /**
   The hypothesis that the policy is fixed is needed: a live Managed network switched to Observe
   forgets the VPC it made, and lets the object go while that VPC exists.
   */
  lemma SwitchToObserveOrphans(w: World, spec: Spec, id: Id)
    requires Inv(w) && Live(w.net) && Quiet(w.env) && w.net.spec.Effective() == Managed
    requires Manages(w.net, VPCs, id) && id in w.cloud.vpcs
    requires Observable(spec, w.cloud) && !spec.GroupManaged()
    ensures var ts := SwitchAway(spec); LegalLife(w, ts) && !Life(w, ts).net.finalizer && id in Life(w, ts).cloud.vpcs
  {
    hide Pass, LegalLife, Life, Inv;
    var w1 := After(w, Edit(spec));
    var w2 := Perform(w1, ObserveAll(spec.vpcID, spec.subnetID, spec.groupID));
    ObservePassRecords(w1);
    var w3 := After(w2, RequestDelete);
    UnmanagedIsReleased(w3);
    FourTurns(w, Other(Edit(spec)), PASS, Other(RequestDelete), PASS);
  }

  lemma UnmanagedIsReleased(w: World)
    requires w.net.deleting && w.net.finalizer && w.net.NothingManaged()
    ensures AfterTurn(w, PASS) == Perform(w, Release)
  {
    hide LivePass, ResourceDelete, Network.Names;
  }

  /** The moves of a life in which the response that would be recorded is lost for good. */
  function LoseRecord(told: bool): seq<Turn> {
    [] + [Reconcile(Fault(PatchVPC, false, told))] + [Other(RequestDelete)] + [PASS]
  }

  /**
   Cleanup covers what was recorded: a VPC that was created, but whose record was lost, is left
   behind when deletion starts before another pass finds it.
   */
  lemma UnrecordedCreateIsLeft(w: World, told: bool)
    requires Inv(w) && Live(w.net) && Quiet(w.env) && w.net.spec.Effective() == Managed
    requires w.net.status.token != "" && w.net.status.vpc.id == 0 && w.net.NothingManaged()
    requires VPCsNamed(w.cloud, w.net.Names().vpc) == {}
    ensures var ts := LoseRecord(told);
            LegalLife(w, ts) && !Life(w, ts).net.finalizer && w.cloud.next in Life(w, ts).cloud.vpcs
  {
    hide Pass, LegalLife, Life, Inv, Network.Names, PolicyPass, VPCsNamed;
    var f := Fault(PatchVPC, false, told);
    var w1 := AfterTurn(w, Reconcile(f));
    var w2 := After(w1, RequestDelete);
    LostPass(w, w.net.Names(), f);
    LostTurn(w, f);
    UnmanagedIsReleased(w2);
    ThreeTurns(w, Reconcile(f), Other(RequestDelete), PASS);
  }

  lemma LostTurn(w: World, f: Fault)
    requires Live(w.net) && Quiet(w.env) && f.at == PatchVPC
    ensures AfterTurn(w, Reconcile(f)) == PolicyPass(w, w.net.Names(), f).w
  {
    hide PolicyPass, DeletePass, Network.Names;
  }

  lemma LostPass(w: World, names: ResourceNames, f: Fault)
    requires w.net.spec.Effective() == Managed && w.net.status.token != "" && w.net.status.vpc.id == 0
    requires Inv(w) && VPCsNamed(w.cloud, names.vpc) == {} && f.at == PatchVPC && !f.took
    ensures var v := PolicyPass(w, names, f).w; v.net == w.net && w.cloud.next in v.cloud.vpcs
  {
    hide SubnetStage, OwnGroupStage, ObservePass, AdoptPass, ReadyStage, Once, ReadyMeans;
  }

  // ---------------------------------------------------------------- a CIDR that stays open

  /** A fault at the last patch does not show before it. */
  predicate AtLastPatch(f: Fault) {
    f.at == PatchReady && !f.took
  }

  lemma VPCUncut(w: World, name: string, f: Fault)
    requires AtLastPatch(f) && VPCStage(w, name, NO_FAULT).Go?
    ensures VPCStage(w, name, f) == VPCStage(w, name, NO_FAULT)
  {
    hide Find, VPCsNamed, Perform;
  }

  lemma SubnetUncut(w: World, name: string, f: Fault)
    requires AtLastPatch(f) && SubnetStage(w, name, NO_FAULT).Go?
    ensures SubnetStage(w, name, f) == SubnetStage(w, name, NO_FAULT)
  {
    hide Find, SubnetsNamed, Perform;
  }

  lemma GroupUncut(w: World, name: string, f: Fault)
    requires AtLastPatch(f) && GroupStage(w, name, NO_FAULT).Go?
    ensures GroupStage(w, name, f) == GroupStage(w, name, NO_FAULT)
  {
    hide Find, GroupsNamed, Perform;
  }

  lemma RulesUncut(w: World, f: Fault)
    requires AtLastPatch(f) && RuleStage(w, NO_FAULT).Go?
    ensures RuleStage(w, f) == RuleStage(w, NO_FAULT)
  {
    hide Perform, Created, Scans, Wanted, Obsolete, Has;
    assert RulesOf(w, f) == RulesOf(w, NO_FAULT);
  }

  lemma BindUncut(w: World, f: Fault)
    requires AtLastPatch(f) && BindOwner(w, NO_FAULT).Go?
    ensures BindOwner(w, f) == BindOwner(w, NO_FAULT) && BindOwner(w, f).w.net.owners == w.net.owners
  {
    hide Fail;
  }

  /** What a pass cut at its last patch leaves alone. */
  predicate SameBut(w: World, v: World) {
    && v.env == w.env && v.net.spec == w.net.spec && v.net.generation == w.net.generation && v.net.owners == w.net.owners
    && v.net.deleting == w.net.deleting && v.net.finalizer == w.net.finalizer && v.net.status.applied == w.net.status.applied
  }

  /** A pass that would end well, cut at its last patch, does everything else. */
  lemma ResourcesUncut(w: World, names: ResourceNames, f: Fault)
    requires AtLastPatch(f) && ResourcesPass(w, names, NO_FAULT).exit.Steady? && w.cloud.Valid() && names.group != ""
    ensures var v := ResourcesPass(w, names, f).w; SameBut(w, v) && ResourcesPass(w, names, NO_FAULT).w == Perform(v, MarkReady)
  {
    hide VPCStage, SubnetStage, GroupStage, RuleStage, Perform, Cloud.Valid, AllWanted;
    VPCUncut(w, names.vpc, f);
    VPCStaged(w, names.vpc, NO_FAULT);
    var w1 := VPCStage(w, names.vpc, NO_FAULT).w;
    SubnetUncut(w1, names.subnet, f);
    SubnetStaged(w1, names.subnet, NO_FAULT);
    var w2 := SubnetStage(w1, names.subnet, NO_FAULT).w;
    GroupUncut(w2, names.group, f);
    OwnGroupStaged(w2, names.group, NO_FAULT);
    RulesUncut(GroupStage(w2, names.group, NO_FAULT).w, f);
  }

  lemma LiveUncut(w: World, names: ResourceNames, f: Fault)
    requires AtLastPatch(f) && w.net.spec.Effective() == Managed && LivePass(w, names, NO_FAULT).exit.Steady?
    requires w.cloud.Valid() && names.group != ""
    ensures var v := LivePass(w, names, f).w; SameBut(w, v) && LivePass(w, names, NO_FAULT).w == Perform(v, MarkReady)
  {
    hide BindOwner, ResourcesPass, TokenStage, Perform, ObservePass, AdoptPass, Cloud.Valid;
    BindUncut(w, f);
    BindKeeps(w, NO_FAULT);
    var w0 := BindOwner(w, NO_FAULT).w;
    TokenUncut(w0, f);
    ResourcesUncut(TokenStage(w0, NO_FAULT).w, names, f);
  }

  lemma TokenUncut(w: World, f: Fault)
    requires AtLastPatch(f)
    ensures TokenStage(w, f) == TokenStage(w, NO_FAULT) && TokenStage(w, f).Go?
    ensures var v := TokenStage(w, f).w; SameBut(w, v) && v.cloud == w.cloud
  {
  }

  lemma PassUncut(w: World, f: Fault)
    requires AtLastPatch(f) && w.net.spec.Effective() == Managed && Pass(w, NO_FAULT).exit.Steady? && Sound(w)
    ensures var v := Pass(w, f).w; SameBut(w, v) && Pass(w, NO_FAULT).w == Perform(v, MarkReady)
  {
    hide LivePass, DeletePass, Network.Names, Perform;
    SteadyIsLive(w, NO_FAULT);
    GroupIsNamed(w.net);
    LiveUncut(w, w.net.Names(), f);
  }

  /** One pass from Ready: live, bound, Managed, with everything on record in the cloud. */
  ghost predicate OnePassAway(w: World) {
    CanFinish(w) && Needs(w) == 1 && w.net.spec.Effective() == Managed && w.net.AllRecorded()
  }

  lemma EditStaysAway(w: World, spec: Spec)
    requires OnePassAway(w) && spec.Effective() == Managed
    ensures OnePassAway(Edited(w, spec))
  {
    hide Inv, Network.Names;
    InvStep(w, Edit(spec));
  }

  lemma CutStaysAway(w: World, f: Fault)
    requires OnePassAway(w) && AtLastPatch(f)
    ensures var v := Pass(w, f).w; OnePassAway(v) && SameBut(w, v)
  {
    hide Pass, Inv, Network.Names, Sound;
    LastPassEnds(w);
    InvIsSound(w);
    PassUncut(w, f);
    PassKeepsRecords(w, f);
    PassKeepsInv(w, f);
    forall k ensures Exists(Pass(w, f).w.cloud, k, Recorded(w.net, k).id) {
      LivePassOnlyAdds(w, f, k, Recorded(w.net, k).id);
    }
    StillAway(w, Pass(w, f).w);
  }

  lemma StillAway(w: World, v: World)
    requires OnePassAway(w) && Inv(v) && KeepsRecords(w, v) && SameBut(w, v)
    requires forall k :: Exists(v.cloud, k, Recorded(w.net, k).id)
    ensures OnePassAway(v)
  {
    hide Inv;
    assert Exists(v.cloud, VPCs, Recorded(w.net, VPCs).id) && Exists(v.cloud, Subnets, Recorded(w.net, Subnets).id) &&
           Exists(v.cloud, Groups, Recorded(w.net, Groups).id);
  }

  /** Cut at its last patch, a pass has opened what the spec asks for and not recorded it. */
  lemma CutOpens(w: World, f: Fault, name: string)
    requires OnePassAway(w) && AtLastPatch(f) && name == w.net.Names().group
    ensures ToSet(w.net.spec.cidrs) <= Admitted(Pass(w, f).w, name)
  {
    hide Pass, Network.Names, Admitted, Once, ReadyMeans, Target;
    LastPassEnds(w);
    PassUncut(w, f);
    PassMoves(w, NO_FAULT);
    var v := Pass(w, f).w;
    CutStaysAway(w, f);
    MarkKeepsAccess(v, name);
  }

  lemma MarkKeepsAccess(v: World, name: string)
    ensures Admitted(Perform(v, MarkReady), name) == Admitted(v, name)
  {
    hide Discover, Find, Open;
  }

  /** The moves of a life in which a CIDR is asked for, opened but not recorded, and dropped again. */
  function AddAndDrop(spec: Spec, c: string, told: bool): seq<Turn> {
    var more := spec.(cidrs := spec.cidrs + [c]);
    [] + [Other(Edit(more))] + [Reconcile(Fault(PatchReady, false, told))] + [Other(Edit(spec))] + [PASS]
  }

  /**
   Access converges only to what was recorded: for every Ready Managed network and every CIDR
   outside its list, adding the CIDR, losing one patch and taking the edit back leaves the network
   Ready at its generation with the old list applied, and the CIDR open.  By
   `UnwantedCIDRRemains` no later pass closes it until an edit asks for it again.
   */
  lemma DroppedCIDRStaysOpen(w: World, c: string, told: bool)
    requires OnePassAway(w) && IsReady(w.net) && c !in w.net.spec.cidrs
    ensures var v := Life(w, AddAndDrop(w.net.spec, c, told));
            && LegalLife(w, AddAndDrop(w.net.spec, c, told)) && Live(v.net) && IsReady(v.net)
            && v.net.spec == w.net.spec && v.net.status.applied == w.net.spec.cidrs
            && c in Admitted(v, w.net.Names().group)
  {
    hide Pass, Network.Names, Admitted, Inv, LegalLife, Life, CanFinish, Needs;
    var spec, f, name := w.net.spec, Fault(PatchReady, false, told), w.net.Names().group;
    var w1 := Edited(w, spec.(cidrs := spec.cidrs + [c]));
    EditStaysAway(w, spec.(cidrs := spec.cidrs + [c]));
    var w2 := Pass(w1, f).w;
    CutStaysAway(w1, f);
    CanFinishInv(w1);
    PassSelf(w1, f);
    SameNameAfter(w, w1);
    CutOpens(w1, f, name);
    var w3 := Edited(w2, spec);
    EditStaysAway(w2, spec);
    OpenedStays(w, w1, w2, w3, c);
    FourTurns(w, Other(Edit(w1.net.spec)), Reconcile(f), Other(Edit(spec)), PASS);
  }

  lemma CanFinishInv(w: World)
    requires CanFinish(w)
    ensures Inv(w)
  {
  }

  lemma SameNameAfter(w: World, v: World)
    requires OnePassAway(w) && OnePassAway(v) && v.net.uid == w.net.uid && v.net.cluster == w.net.cluster
    requires v.net.spec.groupName == w.net.spec.groupName
    ensures v.net.Names().group == w.net.Names().group
  {
    hide Network.Names, Once, ReadyMeans;
    SelfName(w, v);
  }

  lemma OpenedStays(w: World, w1: World, w2: World, w3: World, c: string)
    requires OnePassAway(w) && OnePassAway(w1) && OnePassAway(w2) && OnePassAway(w3) && IsReady(w.net) && c !in w.net.spec.cidrs
    requires w1 == Edited(w, w.net.spec.(cidrs := w.net.spec.cidrs + [c])) && SameBut(w1, w2) && w3 == Edited(w2, w.net.spec)
    requires SameSelf(w1, w2) && c in Admitted(w2, w.net.Names().group)
    ensures var v := Pass(w3, NO_FAULT).w;
            && Live(v.net) && IsReady(v.net) && v.net.spec == w.net.spec && v.net.status.applied == w.net.spec.cidrs
            && c in Admitted(v, w.net.Names().group)
  {
    hide Pass, Network.Names, Admitted, Sound, Once, RecordsExist, Needs;
    var name := w.net.Names().group;
    LastPassEnds(w3);
    SteadyIsFixed(w3, NO_FAULT);
    SameNameAfter(w, w3);
    PassMoves(w3, NO_FAULT);
    EditKeepsAccess(w2, w.net.spec, name);
  }
}
