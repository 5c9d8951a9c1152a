/**
 Safety over whole runs: what the object records it keeps, what it manages it cleans up, and
 what it deletes it once claimed.  Every theorem quantifies over all legal move sequences from
 a fresh object, with the rest of the world acting between any two effects.
 */
module Runs {
  import opened Names
  import opened Rules
  import opened State
  import opened Protocol
  import opened Invariants

  /** A new object: nothing recorded, no finalizer, and none of its names in the cloud. */
  ghost predicate Initial(w: World) {
    var n := w.net;
    && n.uid != "" && n.generation > 0 && !n.deleting && !n.finalizer
    && n.status == Status("", "", NO_RESOURCE, NO_RESOURCE, NO_RESOURCE, [], 0, false)
    && w.cloud.Valid()
    && (forall i :: i in w.cloud.vpcs ==> !OwnName(ShortToken(n.uid), w.cloud.vpcs[i]))
    && (forall i :: i in w.cloud.subnets ==> !OwnName(ShortToken(n.uid), w.cloud.subnets[i].name))
    && (forall i :: i in w.cloud.groups ==> !OwnName(ShortToken(n.uid), w.cloud.groups[i].name))
  }

  lemma {:induction false} InvRun(w: World, ms: seq<Move>)
    requires Inv(w) && LegalRun(w, ms)
    ensures Inv(RunOf(w, ms))
  {
    if ms != [] {
      InvRun(w, ms[..|ms| - 1]);
      InvStep(RunOf(w, ms[..|ms| - 1]), ms[|ms| - 1]);
    }
  }

  lemma Reachable(w: World, ms: seq<Move>)
    requires Initial(w) && LegalRun(w, ms)
    ensures Inv(RunOf(w, ms))
  {
    InvRun(w, ms);
  }

  /** Who the object is never changes, and deletion is never taken back. */
  lemma {:induction false} IdentityRun(w: World, ms: seq<Move>)
    ensures var v := RunOf(w, ms);
            v.net.uid == w.net.uid && v.net.cluster == w.net.cluster && (w.net.deleting ==> v.net.deleting)
  {
    if ms != [] {
      IdentityRun(w, ms[..|ms| - 1]);
      IdentityStep(RunOf(w, ms[..|ms| - 1]), ms[|ms| - 1]);
    }
  }

  lemma IdentityStep(w: World, m: Move)
    ensures var v := After(w, m);
            v.net.uid == w.net.uid && v.net.cluster == w.net.cluster && (w.net.deleting ==> v.net.deleting)
  {
  }

  /** The controller never edits the spec. */
  lemma {:induction false} SpecRun(w: World, ms: seq<Move>)
    requires forall i :: 0 <= i < |ms| ==> ms[i].Do?
    ensures RunOf(w, ms).net.spec == w.net.spec
  {
    if ms != [] {
      SpecRun(w, ms[..|ms| - 1]);
      SpecEffect(RunOf(w, ms[..|ms| - 1]), ms[|ms| - 1].effect);
    }
  }

  lemma SpecEffect(w: World, e: Effect)
    ensures Perform(w, e).net.spec == w.net.spec
  {
  }

  // ---------------------------------------------------------------- kinds of resources

  datatype Kind = VPCs | Subnets | Groups

  function Recorded(n: Network, k: Kind): ResourceStatus {
    match k case VPCs => n.status.vpc case Subnets => n.status.subnet case Groups => n.status.group
  }

  predicate Exists(c: Cloud, k: Kind, id: Id) {
    match k case VPCs => id in c.vpcs case Subnets => id in c.subnets case Groups => id in c.groups
  }

  predicate Manages(n: Network, k: Kind, id: Id) {
    Recorded(n, k).managed && Recorded(n, k).id == id
  }

  // ---------------------------------------------------------------- fixed policies

  /** A spec of a history in which the policies never change, Abandon aside. */
  predicate Fits(s: Spec, p: Policy, hybrid: bool) {
    (s.Effective() == p || s.policy == Abandon) && (p == Observe ==> s.GroupManaged() == hybrid)
  }

  predicate EditsFit(ms: seq<Move>, p: Policy, hybrid: bool) {
    forall i :: 0 <= i < |ms| && ms[i].Edit? ==> Fits(ms[i].spec, p, hybrid)
  }

  /** What fixed policies add: adoption is all or nothing, observation manages no network. */
  ghost predicate Fixed(w: World, p: Policy, hybrid: bool) {
    var n := w.net;
    && Sound(w) && Fits(n.spec, p, hybrid)
    && (p == Adopt && !n.deleting ==>
          n.AllRecorded() || (n.status.vpc.id == 0 && n.status.subnet.id == 0 && n.status.group.id == 0))
    && (p == Observe ==> !n.status.vpc.managed && !n.status.subnet.managed && (!hybrid ==> !n.status.group.managed))
  }

  /** `id` is still managed, or it is gone for good. */
  predicate Kept(w: World, k: Kind, id: Id) {
    Manages(w.net, k, id) || (!Exists(w.cloud, k, id) && id < w.cloud.next)
  }

  lemma FixedEffect(w: World, e: Effect, p: Policy, hybrid: bool)
    requires Fixed(w, p, hybrid) && Inv(w) && Enabled(w, e)
    ensures Fixed(Perform(w, e), p, hybrid)
  {
    InvStep(w, Do(e));
    if Paperwork(e) { FixedPaperwork(w, e, p, hybrid); }
    else if Creates(e) || e.EditRules? { FixedCloud(w, e, p, hybrid); }
    else if Records(e) { FixedRecords(w, e, p, hybrid); }
    else { FixedDeletes(w, e, p, hybrid); }
  }

  lemma FixedPaperwork(w: World, e: Effect, p: Policy, hybrid: bool)
    requires Fixed(w, p, hybrid) && Enabled(w, e) && Paperwork(e) && Sound(Perform(w, e))
    ensures Fixed(Perform(w, e), p, hybrid)
  {
  }

  lemma FixedCloud(w: World, e: Effect, p: Policy, hybrid: bool)
    requires Fixed(w, p, hybrid) && Enabled(w, e) && (Creates(e) || e.EditRules?) && Sound(Perform(w, e))
    ensures Fixed(Perform(w, e), p, hybrid)
  {
  }

  lemma FixedRecords(w: World, e: Effect, p: Policy, hybrid: bool)
    requires Fixed(w, p, hybrid) && Enabled(w, e) && Records(e) && Sound(Perform(w, e))
    ensures Fixed(Perform(w, e), p, hybrid)
  {
  }

  lemma FixedDeletes(w: World, e: Effect, p: Policy, hybrid: bool)
    requires Fixed(w, p, hybrid) && Enabled(w, e) && Deletes(e) && Sound(Perform(w, e))
    ensures Fixed(Perform(w, e), p, hybrid)
  {
  }

  lemma {:induction false} FixedRun(w: World, ms: seq<Move>, p: Policy, hybrid: bool)
    requires Inv(w) && Fixed(w, p, hybrid) && LegalRun(w, ms) && EditsFit(ms, p, hybrid)
    ensures Inv(RunOf(w, ms)) && Fixed(RunOf(w, ms), p, hybrid)
  {
    if ms != [] {
      var before, m := RunOf(w, ms[..|ms| - 1]), ms[|ms| - 1];
      FixedRun(w, ms[..|ms| - 1], p, hybrid);
      InvStep(before, m);
      if m.Do? {
        FixedEffect(before, m.effect, p, hybrid);
      }
    }
  }

  // ---------------------------------------------------------------- no orphans

  lemma KeptRecords(w: World, e: Effect, p: Policy, hybrid: bool, k: Kind, id: Id)
    requires Fixed(w, p, hybrid) && Enabled(w, e) && Records(e) && Kept(w, k, id)
    ensures Kept(Perform(w, e), k, id)
  {
  }

  lemma KeptDeletes(w: World, e: Effect, p: Policy, hybrid: bool, k: Kind, id: Id)
    requires Fixed(w, p, hybrid) && Enabled(w, e) && Deletes(e) && Kept(w, k, id)
    ensures Kept(Perform(w, e), k, id)
  {
  }

  lemma KeptOthers(w: World, e: Effect, k: Kind, id: Id)
    requires Enabled(w, e) && !Records(e) && !Deletes(e) && Kept(w, k, id)
    ensures Kept(Perform(w, e), k, id)
  {
  }

  lemma KeptStep(w: World, m: Move, p: Policy, hybrid: bool, k: Kind, id: Id)
    requires Fixed(w, p, hybrid) && Legal(w, m) && Kept(w, k, id)
    ensures Kept(After(w, m), k, id)
  {
    if m.Do? {
      if Records(m.effect) { KeptRecords(w, m.effect, p, hybrid, k, id); }
      else if Deletes(m.effect) { KeptDeletes(w, m.effect, p, hybrid, k, id); }
      else { KeptOthers(w, m.effect, k, id); }
    }
  }

  lemma {:induction false} KeptRun(w: World, ms: seq<Move>, p: Policy, hybrid: bool, k: Kind, id: Id)
    requires Inv(w) && Fixed(w, p, hybrid) && LegalRun(w, ms) && EditsFit(ms, p, hybrid) && Kept(w, k, id)
    ensures Kept(RunOf(w, ms), k, id)
  {
    if ms != [] {
      var before, m := RunOf(w, ms[..|ms| - 1]), ms[|ms| - 1];
      KeptRun(w, ms[..|ms| - 1], p, hybrid, k, id);
      FixedRun(w, ms[..|ms| - 1], p, hybrid);
      KeptStep(before, m, p, hybrid, k, id);
    }
  }

  /** A run in two halves from a new object whose policies never change, Abandon aside. */
  ghost predicate FixedHistory(w: World, a: seq<Move>, b: seq<Move>, p: Policy, hybrid: bool) {
    && Initial(w) && Fits(w.net.spec, p, hybrid)
    && LegalRun(w, a) && LegalRun(RunOf(w, a), b)
    && EditsFit(a, p, hybrid) && EditsFit(b, p, hybrid)
  }

  /** Whatever was managed once is, at any later time, still managed or gone from the cloud. */
  lemma ManagedOrGone(w: World, a: seq<Move>, b: seq<Move>, p: Policy, hybrid: bool, k: Kind, id: Id)
    requires FixedHistory(w, a, b, p, hybrid)
    requires Manages(RunOf(w, a).net, k, id)
    ensures Kept(RunOf(RunOf(w, a), b), k, id)
    ensures Inv(RunOf(RunOf(w, a), b))
  {
    FixedRun(w, a, p, hybrid);
    KeptRun(RunOf(w, a), b, p, hybrid, k, id);
    InvRun(RunOf(w, a), b);
  }

  /**
   No orphan: when the finalizer is about to be removed by any pass but an Abandon one, no
   resource that was ever recorded as managed exists in the cloud.
   */
  lemma NoOrphan(w: World, a: seq<Move>, b: seq<Move>, p: Policy, hybrid: bool, k: Kind, id: Id)
    requires FixedHistory(w, a, b, p, hybrid)
    requires Manages(RunOf(w, a).net, k, id)
    requires Enabled(RunOf(RunOf(w, a), b), Release) && RunOf(RunOf(w, a), b).net.spec.policy != Abandon
    ensures !Exists(RunOf(RunOf(w, a), b).cloud, k, id)
  {
    ManagedOrGone(w, a, b, p, hybrid, k, id);
  }

  /**
   Deletion order: when a subnet delete is issued, every group ever managed is gone; when a VPC
   delete is issued, every group and every subnet ever managed is gone.
   */
  lemma DeletionOrder(w: World, a: seq<Move>, b: seq<Move>, p: Policy, hybrid: bool, k: Kind, id: Id, e: Effect)
    requires FixedHistory(w, a, b, p, hybrid)
    requires Manages(RunOf(w, a).net, k, id)
    requires (e == DeleteSubnet && k == Groups) || (e == DeleteVPC && k != VPCs)
    requires Enabled(RunOf(RunOf(w, a), b), e)
    ensures !Exists(RunOf(RunOf(w, a), b).cloud, k, id)
  {
    ManagedOrGone(w, a, b, p, hybrid, k, id);
    assert !Recorded(RunOf(RunOf(w, a), b).net, k).managed;
  }

  /** An effect leaves `id` live in the cloud but no longer managed. */
  predicate Forgets(w: World, e: Effect, k: Kind, id: Id) {
    Manages(w.net, k, id) && Exists(Perform(w, e).cloud, k, id) && !Manages(Perform(w, e).net, k, id)
  }

  /**
   Exactly when an effect orphans a live resource, with no hypothesis on policies: an Observe
   pass overwrites the record (except a hybrid one, its own group), or an adoption replaces it.
   */
  lemma OnlyOverwritesForget(w: World, e: Effect, k: Kind, id: Id)
    requires Sound(w) && Enabled(w, e) && Manages(w.net, k, id) && Exists(w.cloud, k, id)
    ensures Forgets(w, e, k, id) <==>
            || (e.ObserveAll? && !(k == Groups && w.net.spec.GroupManaged()))
            || (e.AdoptAll? && id != (match k case VPCs => e.vpc case Subnets => e.subnet case Groups => e.group))
  {
    if Records(e) { ForgetsRecords(w, e, k, id); }
    else if Deletes(e) { ForgetsDeletes(w, e, k, id); }
  }

  lemma ForgetsRecords(w: World, e: Effect, k: Kind, id: Id)
    requires Sound(w) && Enabled(w, e) && Records(e) && Manages(w.net, k, id) && Exists(w.cloud, k, id)
    ensures Forgets(w, e, k, id) <==>
            || (e.ObserveAll? && !(k == Groups && w.net.spec.GroupManaged()))
            || (e.AdoptAll? && id != (match k case VPCs => e.vpc case Subnets => e.subnet case Groups => e.group))
  {
  }

  lemma ForgetsDeletes(w: World, e: Effect, k: Kind, id: Id)
    requires Sound(w) && Enabled(w, e) && Deletes(e) && Manages(w.net, k, id) && Exists(w.cloud, k, id)
    ensures !Forgets(w, e, k, id)
  {
  }

  // ---------------------------------------------------------------- write-once records

  /** `r` is still what is recorded, or deletion has cleared it. */
  predicate Stuck(w: World, k: Kind, r: ResourceStatus) {
    Recorded(w.net, k) == r || (w.net.deleting && Recorded(w.net, k) == NO_RESOURCE)
  }

  lemma StuckEffect(w: World, e: Effect, p: Policy, k: Kind, r: ResourceStatus)
    requires p in {Managed, Adopt} && Fixed(w, p, false) && Enabled(w, e)
    requires r.id != 0 && Stuck(w, k, r)
    ensures Stuck(Perform(w, e), k, r)
  {
    if Records(e) { StuckRecords(w, e, p, k, r); }
    else if Deletes(e) { StuckDeletes(w, e, p, k, r); }
  }

  lemma StuckRecords(w: World, e: Effect, p: Policy, k: Kind, r: ResourceStatus)
    requires p in {Managed, Adopt} && Fixed(w, p, false) && Enabled(w, e) && Records(e)
    requires r.id != 0 && Stuck(w, k, r)
    ensures Stuck(Perform(w, e), k, r)
  {
  }

  lemma StuckDeletes(w: World, e: Effect, p: Policy, k: Kind, r: ResourceStatus)
    requires Fixed(w, p, false) && Enabled(w, e) && Deletes(e)
    requires r.id != 0 && Stuck(w, k, r)
    ensures Stuck(Perform(w, e), k, r)
  {
  }

  /** With Managed or Adopt fixed, a record is written once and leaves only by deletion. */
  lemma {:induction false} RecordsAreWriteOnce(w: World, ms: seq<Move>, p: Policy, k: Kind, r: ResourceStatus)
    requires p in {Managed, Adopt} && Inv(w) && Fixed(w, p, false) && LegalRun(w, ms) && EditsFit(ms, p, false)
    requires r.id != 0 && Stuck(w, k, r)
    ensures Stuck(RunOf(w, ms), k, r)
  {
    if ms != [] {
      var before, m := RunOf(w, ms[..|ms| - 1]), ms[|ms| - 1];
      RecordsAreWriteOnce(w, ms[..|ms| - 1], p, k, r);
      FixedRun(w, ms[..|ms| - 1], p, false);
      if m.Do? {
        StuckEffect(before, m.effect, p, k, r);
      }
    }
  }

  /**
   The two controllers agree: with Managed or Adopt fixed, every machine config that is ever
   patched, now or at any later time, is patched with the same values.
   */
  lemma EveryConfigGetsTheSameNetwork(w: World, a: seq<Move>, b: seq<Move>, p: Policy)
    requires p in {Managed, Adopt} && FixedHistory(w, a, b, p, false)
    requires Propagates(RunOf(w, a).net) && Propagates(RunOf(RunOf(w, a), b).net)
    ensures Shared(RunOf(w, a).net.status) == Shared(RunOf(RunOf(w, a), b).net.status)
    ensures var s, t := RunOf(w, a).net.status, RunOf(RunOf(w, a), b).net.status;
            s.vpc == t.vpc && s.subnet == t.subnet && s.group == t.group
  {
    var v := RunOf(w, a);
    FixedRun(w, a, p, false);
    RecordsAreWriteOnce(v, b, p, VPCs, v.net.status.vpc);
    RecordsAreWriteOnce(v, b, p, Subnets, v.net.status.subnet);
    RecordsAreWriteOnce(v, b, p, Groups, v.net.status.group);
  }
}
