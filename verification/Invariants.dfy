/**
 What holds in every state of every run, whatever anyone edits: the shape of the status,
 exactly-once creation, and the meaning of Ready.
 */
module Invariants {
  import opened Names
  import opened Rules
  import opened State
  import opened Protocol

  // ---------------------------------------------------------------- the shape of the status

  /** A recorded resource: managed only with an ID, and the ID is one the cloud issued. */
  predicate SoundResource(r: ResourceStatus, next: Id) {
    (r.managed ==> r.id != 0) && r.id < next
  }

  ghost predicate Sound(w: World) {
    && w.cloud.Valid()
    && w.net.uid != "" && w.net.status.token in {"", w.net.uid}
    && SoundResource(w.net.status.vpc, w.cloud.next)
    && SoundResource(w.net.status.subnet, w.cloud.next)
    && SoundResource(w.net.status.group, w.cloud.next)
    && (w.net.status.group.id != 0 ==> w.net.status.group.name != "")
  }

  predicate Carry(names: ResourceNames, t: string) {
    OwnName(t, names.vpc) && OwnName(t, names.subnet) && OwnName(t, names.group)
  }

  /** Every name the object asks for carries the object's short token. */
  lemma NamesCarryToken(n: Network)
    ensures Carry(n.Names(), ShortToken(n.Token()))
  {
    var t := ShortToken(n.Token());
    ManagedNameShape(FirstNonEmpty(n.spec.vpcName, n.cluster), t);
    ManagedNameShape(FirstNonEmpty(n.spec.subnetName, n.cluster + "-subnet"), t);
    ManagedNameShape(FirstNonEmpty(n.spec.groupName, n.cluster + "-rke2"), t);
  }

  /** A base name that is a label in lower case and leaves room for nine characters. */
  predicate Fitting(base: string) {
    Label(Lower(base)) && |base| <= 54
  }

  /**
   What the resources are called, for an object with a UID: the name in the spec, or else the
   cluster's name with its suffix, then the first eight characters of the UID.
   */
  lemma ResourcesAreCalled(n: Network)
    requires LikeUID(n.uid) && n.status.token in {"", n.uid}
    requires Fitting(n.cluster + "-subnet") && Fitting(n.cluster + "-rke2") && Fitting(n.cluster)
    ensures n.spec.vpcName == "" ==> n.Names().vpc == Lower(n.cluster) + "-" + n.uid[..8]
    ensures n.spec.subnetName == "" ==> n.Names().subnet == Lower(n.cluster + "-subnet") + "-" + n.uid[..8]
    ensures n.spec.groupName == "" ==> n.Names().group == Lower(n.cluster + "-rke2") + "-" + n.uid[..8]
    ensures n.spec.vpcName != "" && Fitting(n.spec.vpcName) ==> n.Names().vpc == Lower(n.spec.vpcName) + "-" + n.uid[..8]
    ensures n.spec.subnetName != "" && Fitting(n.spec.subnetName) ==>
              n.Names().subnet == Lower(n.spec.subnetName) + "-" + n.uid[..8]
    ensures n.spec.groupName != "" && Fitting(n.spec.groupName) ==>
              n.Names().group == Lower(n.spec.groupName) + "-" + n.uid[..8]
  {
    hide ManagedName, Label, Lower;
    ShortTokenOfUID(n.uid);
    Called(n.cluster, n.uid[..8]);
    Called(n.cluster + "-subnet", n.uid[..8]);
    Called(n.cluster + "-rke2", n.uid[..8]);
    Called(n.spec.vpcName, n.uid[..8]);
    Called(n.spec.subnetName, n.uid[..8]);
    Called(n.spec.groupName, n.uid[..8]);
  }

  lemma Called(base: string, token: string)
    requires |token| == 8
    ensures Fitting(base) ==> ManagedName(base, token) == Lower(base) + "-" + token
  {
    hide ManagedName, Label;
    if Fitting(base) {
      ManagedNameKeepsBase(base, token);
    }
  }

  // ---------------------------------------------------------------- exactly-once creation

  predicate OnceVPC(t: string, c: Cloud) {
    forall i, j :: i in c.vpcs && j in c.vpcs && c.vpcs[i] == c.vpcs[j] && OwnName(t, c.vpcs[i]) ==> i == j
  }

  predicate OnceSubnet(t: string, c: Cloud) {
    forall i, j ::
      i in c.subnets && j in c.subnets && c.subnets[i].name == c.subnets[j].name && OwnName(t, c.subnets[i].name) ==> i == j
  }

  predicate OnceGroup(t: string, c: Cloud) {
    forall i, j ::
      i in c.groups && j in c.groups && c.groups[i].name == c.groups[j].name && OwnName(t, c.groups[i].name) ==> i == j
  }

  /** Until a subnet is recorded, every subnet of the object lies in the recorded VPC. */
  predicate SubnetsInPlace(t: string, w: World) {
    !w.net.deleting && w.net.status.subnet.id == 0 ==>
      forall i :: i in w.cloud.subnets && OwnName(t, w.cloud.subnets[i].name) ==>
        w.net.status.vpc.id != 0 && w.cloud.subnets[i].vpc == w.net.status.vpc.id
  }

  ghost predicate Once(w: World) {
    var t := ShortToken(w.net.uid);
    OnceVPC(t, w.cloud) && OnceSubnet(t, w.cloud) && OnceGroup(t, w.cloud) && SubnetsInPlace(t, w)
  }

  // ---------------------------------------------------------------- Ready

  ghost predicate ReadyMeans(w: World) {
    var n := w.net;
    && n.status.observed <= n.generation
    && (!n.deleting && n.status.observed == n.generation ==>
          Complete(n) && (RulesWanted(n.spec) ==> n.status.applied == n.spec.cidrs))
  }

  // ---------------------------------------------------------------- induction over runs

  ghost predicate Inv(w: World) {
    Sound(w) && Once(w) && ReadyMeans(w)
  }

  lemma InvPaperwork(w: World, e: Effect)
    requires Inv(w) && Enabled(w, e) && Paperwork(e)
    ensures Inv(Perform(w, e))
  {
  }

  lemma InvCreates(w: World, e: Effect)
    requires Inv(w) && Enabled(w, e) && Creates(e)
    ensures Inv(Perform(w, e))
  {
    SoundCreates(w, e);
    OnceCreates(w, e);
  }

  lemma SoundCreates(w: World, e: Effect)
    requires Sound(w) && Enabled(w, e) && Creates(e)
    ensures Sound(Perform(w, e))
  {
  }

  lemma OnceCreates(w: World, e: Effect)
    requires Sound(w) && Once(w) && Enabled(w, e) && Creates(e)
    ensures Once(Perform(w, e))
  {
  }

  lemma InvRecords(w: World, e: Effect)
    requires Inv(w) && Enabled(w, e) && Records(e)
    ensures Inv(Perform(w, e))
  {
  }

  lemma InvDeletes(w: World, e: Effect)
    requires Inv(w) && Enabled(w, e) && Deletes(e)
    ensures Inv(Perform(w, e))
  {
  }

  lemma InvRules(w: World, e: Effect)
    requires Inv(w) && Enabled(w, e) && e.EditRules?
    ensures Inv(Perform(w, e))
  {
  }

  lemma InvStep(w: World, m: Move)
    requires Inv(w) && Legal(w, m)
    ensures Inv(After(w, m))
  {
    if m.Do? {
      if Paperwork(m.effect) { InvPaperwork(w, m.effect); }
      else if Creates(m.effect) { InvCreates(w, m.effect); }
      else if Records(m.effect) { InvRecords(w, m.effect); }
      else if Deletes(m.effect) { InvDeletes(w, m.effect); }
      else { InvRules(w, m.effect); }
    }
  }
}
