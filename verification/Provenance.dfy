/**
 Where the identifiers that the controller deletes come from, under arbitrary policy edits.
 */
module Provenance {
  import opened Names
  import opened Rules
  import opened Adoption
  import opened State
  import opened Protocol
  import opened Invariants
  import opened Runs

  /** The move records `id` by lookup or creation under an own name, or by adoption. */
  predicate Claims(m: Move, k: Kind, id: Id) {
    m.Do? && match k
      case VPCs => m.effect == RecordVPC(id) || (m.effect.AdoptAll? && m.effect.vpc == id)
      case Subnets => m.effect == RecordSubnet(id) || (m.effect.AdoptAll? && m.effect.subnet == id)
      case Groups => m.effect == RecordGroup(id) || (m.effect.AdoptAll? && m.effect.group == id)
  }

  predicate Observes(m: Move) {
    m.Do? && m.effect.ObserveAll?
  }

  predicate Claimed(ms: seq<Move>, k: Kind, id: Id) {
    exists j :: 0 <= j < |ms| && Claims(ms[j], k, id)
  }

  predicate NeverObserved(ms: seq<Move>) {
    forall j :: 0 <= j < |ms| ==> !Observes(ms[j])
  }

  lemma ClaimedLater(ms: seq<Move>, k: Kind, id: Id)
    requires ms != [] && (Claimed(ms[..|ms| - 1], k, id) || Claims(ms[|ms| - 1], k, id))
    ensures Claimed(ms, k, id)
  {
    if Claimed(ms[..|ms| - 1], k, id) {
      var j :| 0 <= j < |ms| - 1 && Claims(ms[..|ms| - 1][j], k, id);
      assert Claims(ms[j], k, id);
    }
  }

  lemma NeverObservedEarlier(ms: seq<Move>)
    requires ms != []
    ensures NeverObserved(ms) <==> NeverObserved(ms[..|ms| - 1]) && !Observes(ms[|ms| - 1])
  {
    if NeverObserved(ms) {
      assert forall j :: 0 <= j < |ms| - 1 ==> ms[..|ms| - 1][j] == ms[j];
    }
  }

  /** What the object manages after `ms` it claimed in `ms`; one observation ends all that. */
  ghost predicate Traced(n: Network, ms: seq<Move>) {
    && (n.status.vpc.managed ==> Claimed(ms, VPCs, n.status.vpc.id))
    && (n.status.subnet.managed ==> Claimed(ms, Subnets, n.status.subnet.id))
    && (!NeverObserved(ms) ==>
          !n.status.vpc.managed && !n.status.subnet.managed && (n.deleting || n.AllRecorded()))
  }

  /** One effect, seen from what was traced before it. */
  lemma TracedEffect(w: World, e: Effect, k: Kind)
    requires Sound(w) && Enabled(w, e) && k != Groups
    ensures var r := Recorded(Perform(w, e).net, k);
            r.managed ==> Recorded(w.net, k) == r || Claims(Do(e), k, r.id)
    ensures var r := Recorded(Perform(w, e).net, k);
            (w.net.deleting || w.net.AllRecorded()) && !Recorded(w.net, k).managed ==> !r.managed
    ensures e.ObserveAll? ==> !Recorded(Perform(w, e).net, k).managed && Perform(w, e).net.AllRecorded()
    ensures w.net.deleting || w.net.AllRecorded() ==> Perform(w, e).net.deleting || Perform(w, e).net.AllRecorded()
  {
    if Records(e) { TracedRecords(w, e, k); }
    else if Deletes(e) { TracedDeletes(w, e, k); }
  }

  lemma TracedRecords(w: World, e: Effect, k: Kind)
    requires Sound(w) && Enabled(w, e) && Records(e) && k != Groups
    ensures var r := Recorded(Perform(w, e).net, k);
            r.managed ==> Recorded(w.net, k) == r || Claims(Do(e), k, r.id)
    ensures w.net.AllRecorded() && !Recorded(w.net, k).managed ==> !Recorded(Perform(w, e).net, k).managed
    ensures e.ObserveAll? ==> !Recorded(Perform(w, e).net, k).managed && Perform(w, e).net.AllRecorded()
    ensures w.net.AllRecorded() ==> Perform(w, e).net.AllRecorded()
  {
  }

  lemma TracedDeletes(w: World, e: Effect, k: Kind)
    requires Sound(w) && Enabled(w, e) && Deletes(e)
    ensures var r := Recorded(Perform(w, e).net, k); r.managed ==> Recorded(w.net, k) == r
    ensures Perform(w, e).net.deleting
  {
  }

  lemma {:induction false} TracedRun(w: World, ms: seq<Move>)
    requires Initial(w) && LegalRun(w, ms)
    ensures Traced(RunOf(w, ms).net, ms)
  {
    hide Enabled, Perform, Inv, Claims;
    if ms != [] {
      var pre, m := ms[..|ms| - 1], ms[|ms| - 1];
      TracedRun(w, pre);
      Reachable(w, pre);
      NeverObservedEarlier(ms);
      var v := RunOf(w, pre);
      if m.Do? {
        TracedEffect(v, m.effect, VPCs);
        TracedEffect(v, m.effect, Subnets);
      }
      TracedMove(v, m, pre, ms);
    }
  }

  lemma TracedMove(v: World, m: Move, pre: seq<Move>, ms: seq<Move>)
    requires ms != [] && pre == ms[..|ms| - 1] && m == ms[|ms| - 1]
    requires forall k :: k != Groups && Recorded(After(v, m).net, k).managed ==>
               Recorded(v.net, k) == Recorded(After(v, m).net, k) || Claims(m, k, Recorded(After(v, m).net, k).id)
    requires Traced(v.net, pre)
    ensures After(v, m).net.status.vpc.managed ==> Claimed(ms, VPCs, After(v, m).net.status.vpc.id)
    ensures After(v, m).net.status.subnet.managed ==> Claimed(ms, Subnets, After(v, m).net.status.subnet.id)
  {
    if After(v, m).net.status.vpc.managed {
      assert Recorded(After(v, m).net, VPCs).managed;
      ClaimedLater(ms, VPCs, After(v, m).net.status.vpc.id);
    }
    if After(v, m).net.status.subnet.managed {
      assert Recorded(After(v, m).net, Subnets).managed;
      ClaimedLater(ms, Subnets, After(v, m).net.status.subnet.id);
    }
  }

  /**
   Under any edits of any policy, a VPC or subnet delete targets an identifier that this
   object claimed under its own name or by adoption, and nothing was ever observed before.
   */
  lemma DeletesOnlyClaimed(w: World, ms: seq<Move>, k: Kind)
    requires Initial(w) && LegalRun(w, ms) && k != Groups
    requires Enabled(RunOf(w, ms), if k == VPCs then DeleteVPC else DeleteSubnet)
    ensures Claimed(ms, k, Recorded(RunOf(w, ms).net, k).id)
    ensures NeverObserved(ms)
  {
    TracedRun(w, ms);
    assert Recorded(RunOf(w, ms).net, k).managed;
  }

  // ---------------------------------------------------------------- security groups

  predicate GroupPolicyFixed(ms: seq<Move>, managed: bool) {
    forall i :: 0 <= i < |ms| && ms[i].Edit? ==> ms[i].spec.GroupManaged() == managed
  }

  ghost predicate GroupTraced(n: Network, ms: seq<Move>, managed: bool) {
    && n.spec.GroupManaged() == managed
    && (n.status.group.managed ==> Claimed(ms, Groups, n.status.group.id))
    && (managed && n.status.group.id != 0 ==> n.status.group.managed)
    && (!managed && !NeverObserved(ms) ==> !n.status.group.managed && (n.deleting || n.AllRecorded()))
  }

  lemma GroupEffect(w: World, e: Effect)
    requires Sound(w) && Enabled(w, e)
    requires w.net.spec.GroupManaged() && w.net.status.group.id != 0 ==> w.net.status.group.managed
    ensures var r, q := w.net.status.group, Perform(w, e).net.status.group;
            && (q.managed ==> (r.managed && r.id == q.id) || Claims(Do(e), Groups, q.id))
            && (w.net.spec.GroupManaged() && q.id != 0 ==> q.managed)
            && (!w.net.spec.GroupManaged() && (w.net.deleting || w.net.AllRecorded()) && !r.managed ==> !q.managed)
            && (!w.net.spec.GroupManaged() && e.ObserveAll? ==> !q.managed && Perform(w, e).net.AllRecorded())
    ensures Perform(w, e).net.spec == w.net.spec
    ensures w.net.deleting || w.net.AllRecorded() ==> Perform(w, e).net.deleting || Perform(w, e).net.AllRecorded()
  {
    if Records(e) { GroupRecords(w, e); }
    else if Deletes(e) { GroupDeletes(w, e); }
  }

  lemma GroupRecords(w: World, e: Effect)
    requires Sound(w) && Enabled(w, e) && Records(e)
    requires w.net.spec.GroupManaged() && w.net.status.group.id != 0 ==> w.net.status.group.managed
    ensures var r, q := w.net.status.group, Perform(w, e).net.status.group;
            && (q.managed ==> (r.managed && r.id == q.id) || Claims(Do(e), Groups, q.id))
            && (w.net.spec.GroupManaged() && q.id != 0 ==> q.managed)
            && (!w.net.spec.GroupManaged() && w.net.AllRecorded() && !r.managed ==> !q.managed)
            && (!w.net.spec.GroupManaged() && e.ObserveAll? ==> !q.managed && Perform(w, e).net.AllRecorded())
    ensures Perform(w, e).net.spec == w.net.spec
    ensures w.net.AllRecorded() ==> Perform(w, e).net.AllRecorded()
  {
  }

  lemma GroupDeletes(w: World, e: Effect)
    requires Sound(w) && Enabled(w, e) && Deletes(e)
    ensures Perform(w, e).net.status.group in {w.net.status.group, NO_RESOURCE}
    ensures Perform(w, e).net.spec == w.net.spec && Perform(w, e).net.deleting
  {
  }

  lemma {:induction false} GroupTracedRun(w: World, ms: seq<Move>, managed: bool)
    requires Initial(w) && LegalRun(w, ms)
    requires w.net.spec.GroupManaged() == managed && GroupPolicyFixed(ms, managed)
    ensures GroupTraced(RunOf(w, ms).net, ms, managed)
  {
    hide Enabled, Perform, Claims;
    if ms != [] {
      var pre, m := ms[..|ms| - 1], ms[|ms| - 1];
      GroupTracedRun(w, pre, managed);
      Reachable(w, pre);
      NeverObservedEarlier(ms);
      var v := RunOf(w, pre);
      if m.Do? {
        GroupEffect(v, m.effect);
      }
      if After(v, m).net.status.group.managed {
        ClaimedLater(ms, Groups, After(v, m).net.status.group.id);
      }
    }
  }

  /** With the group policy constant, the same holds of security groups. */
  lemma GroupDeletesOnlyClaimed(w: World, ms: seq<Move>, managed: bool)
    requires Initial(w) && LegalRun(w, ms)
    requires w.net.spec.GroupManaged() == managed && GroupPolicyFixed(ms, managed)
    requires Enabled(RunOf(w, ms), DeleteGroup)
    ensures Claimed(ms, Groups, RunOf(w, ms).net.status.group.id)
    ensures !managed ==> NeverObserved(ms)
  {
    GroupTracedRun(w, ms, managed);
  }

  // ---------------------------------------------------------------- exactly when a group is claimed

  /** An observation under a Managed group policy meets a group on record that is not managed. */
  predicate Seizes(w: World, m: Move) {
    m.Do? && m.effect.ObserveAll? && w.net.spec.GroupManaged() && !w.net.status.group.managed
  }

  /** The group that deletion would delete after `ms` was claimed in `ms`. */
  predicate GroupClaimed(n: Network, ms: seq<Move>) {
    n.status.group.managed ==> Claimed(ms, Groups, n.status.group.id)
  }

  /** At every time of the run the group that deletion would delete is a claimed one. */
  ghost predicate AlwaysClaimed(w: World, ms: seq<Move>) {
    GroupClaimed(RunOf(w, ms).net, ms) && (ms != [] ==> AlwaysClaimed(w, ms[..|ms| - 1]))
  }

  /** No observation of the run seizes a group that was not claimed before. */
  ghost predicate SeizesOnlyClaimed(w: World, ms: seq<Move>) {
    ms != [] ==>
      var pre, m := ms[..|ms| - 1], ms[|ms| - 1];
      SeizesOnlyClaimed(w, pre) && (Seizes(RunOf(w, pre), m) ==> Claimed(pre, Groups, m.effect.group))
  }

  /** A managed group was managed before, or is claimed now, or is seized now. */
  lemma GroupSource(w: World, e: Effect)
    requires Sound(w) && Enabled(w, e)
    ensures var r, q := w.net.status.group, Perform(w, e).net.status.group;
            && (q.managed ==> (r.managed && r.id == q.id) || Claims(Do(e), Groups, q.id) || Seizes(w, Do(e)))
            && (Seizes(w, Do(e)) ==> q.managed && q.id == e.group && !Claims(Do(e), Groups, q.id))
  {
    if Records(e) { GroupSourceRecords(w, e); }
    else if Deletes(e) { GroupDeletes(w, e); }
  }

  lemma GroupSourceRecords(w: World, e: Effect)
    requires Sound(w) && Enabled(w, e) && Records(e)
    ensures var r, q := w.net.status.group, Perform(w, e).net.status.group;
            && (q.managed ==> (r.managed && r.id == q.id) || Claims(Do(e), Groups, q.id) || Seizes(w, Do(e)))
            && (Seizes(w, Do(e)) ==> q.managed && q.id == e.group && !Claims(Do(e), Groups, q.id))
  {
    hide Discover, OwnName, Tag;
  }

  lemma ClaimedBefore(ms: seq<Move>, k: Kind, id: Id)
    requires ms != [] && Claimed(ms, k, id) && !Claims(ms[|ms| - 1], k, id)
    ensures Claimed(ms[..|ms| - 1], k, id)
  {
    var j :| 0 <= j < |ms| && Claims(ms[j], k, id);
    assert ms[..|ms| - 1][j] == ms[j];
  }

  /**
   Exactly when group deletes are safe, under any edits of any policy: at every time of a run the
   group that would be deleted is a claimed one, if and only if no observation of the run seized an
   unclaimed one.
   */
  lemma {:induction false} GroupsAreClaimedUnlessSeized(w: World, ms: seq<Move>)
    requires Initial(w) && LegalRun(w, ms)
    ensures AlwaysClaimed(w, ms) <==> SeizesOnlyClaimed(w, ms)
  {
    hide Enabled, Perform, Claims, Seizes, Inv;
    if ms != [] {
      var pre, m := ms[..|ms| - 1], ms[|ms| - 1];
      GroupsAreClaimedUnlessSeized(w, pre);
      Reachable(w, pre);
      if AlwaysClaimed(w, pre) {
        ClaimStep(w, pre, m, ms);
      }
    }
  }

  lemma ClaimStep(w: World, pre: seq<Move>, m: Move, ms: seq<Move>)
    requires ms != [] && pre == ms[..|ms| - 1] && m == ms[|ms| - 1]
    requires Inv(RunOf(w, pre)) && Legal(RunOf(w, pre), m) && GroupClaimed(RunOf(w, pre).net, pre)
    ensures GroupClaimed(RunOf(w, ms).net, ms) <==> (Seizes(RunOf(w, pre), m) ==> Claimed(pre, Groups, m.effect.group))
  {
    hide Enabled, Perform, Claims, Claimed, Once, ReadyMeans;
    var v := RunOf(w, pre);
    var q := After(v, m).net.status.group;
    if m.Do? {
      GroupSource(v, m.effect);
    }
    if q.managed {
      if Seizes(v, m) {
        if Claimed(ms, Groups, q.id) { ClaimedBefore(ms, Groups, q.id); }
        if Claimed(pre, Groups, q.id) { ClaimedLater(ms, Groups, q.id); }
      } else {
        ClaimedLater(ms, Groups, q.id);
      }
    }
  }

  /** So every group delete targets a claimed group, unless an unclaimed one was seized before. */
  lemma GroupDeletesClaimedUnlessSeized(w: World, ms: seq<Move>)
    requires Initial(w) && LegalRun(w, ms) && SeizesOnlyClaimed(w, ms) && Enabled(RunOf(w, ms), DeleteGroup)
    ensures Claimed(ms, Groups, RunOf(w, ms).net.status.group.id)
  {
    hide LegalRun, Initial;
    GroupsAreClaimedUnlessSeized(w, ms);
  }

  /** And a seized group is deleted, unclaimed, as soon as the object is and no machine is left. */
  lemma SeizedGroupIsDeletable(w: World, ms: seq<Move>, e: Effect)
    requires Initial(w) && LegalRun(w, ms) && Enabled(RunOf(w, ms), e) && Seizes(RunOf(w, ms), Do(e))
    requires !Claimed(ms, Groups, e.group)
    ensures var v := RunOf(w, ms);
            var all := ms + [Do(e)] + [RequestDelete] + [Surround(v.env.(machines := []))];
            && LegalRun(w, all) && Enabled(RunOf(w, all), DeleteGroup)
            && RunOf(w, all).net.status.group.id == e.group && !Claimed(all, Groups, e.group)
  {
    hide Enabled, Perform, LegalRun, RunOf, Initial, Claimed, Legal, After;
    var v := RunOf(w, ms);
    Reachable(w, ms);
    var a, b, c := Do(e), RequestDelete, Surround(v.env.(machines := []));
    SeizedIsEnabled(v, e);
    MoveOn(w, ms, a);
    MoveOn(w, ms + [a], b);
    MoveOn(w, ms + [a] + [b], c);
    UnclaimedOn(ms, a, e.group);
    UnclaimedOn(ms + [a], b, e.group);
    UnclaimedOn(ms + [a] + [b], c, e.group);
  }

  lemma MoveOn(w: World, ms: seq<Move>, m: Move)
    requires LegalRun(w, ms) && (Legal(RunOf(w, ms), m) || m == RequestDelete || m.Surround?)
    ensures LegalRun(w, ms + [m]) && RunOf(w, ms + [m]) == After(RunOf(w, ms), m)
  {
    hide After;
    assert (ms + [m])[..|ms|] == ms;
  }

  lemma UnclaimedOn(ms: seq<Move>, m: Move, id: Id)
    requires !Claimed(ms, Groups, id) && !(m.Do? && !m.effect.ObserveAll?)
    ensures !Claimed(ms + [m], Groups, id)
  {
    assert (ms + [m])[..|ms|] == ms;
    if Claimed(ms + [m], Groups, id) {
      ClaimedBefore(ms + [m], Groups, id);
    }
  }

  lemma SeizedIsEnabled(v: World, e: Effect)
    requires Inv(v) && Enabled(v, e) && Seizes(v, Do(e))
    ensures Legal(v, Do(e))
    ensures var u := After(After(After(v, Do(e)), RequestDelete), Surround(v.env.(machines := [])));
            Enabled(u, DeleteGroup) && u.net.status.group.id == e.group
  {
    hide Once, ReadyMeans, NoInstances;
  }

  // ---------------------------------------------------------------- a condition on the object alone

  /** A hybrid spec, and a group on record that is not managed: the next pass may seize it. */
  predicate Exposed(n: Network) {
    n.spec.policy == Observe && n.spec.GroupManaged() && n.status.group.id != 0 && !n.status.group.managed
  }

  lemma OnlyExposedAreSeized(w: World, m: Move)
    requires Sound(w) && Legal(w, m) && Seizes(w, m)
    ensures Exposed(w.net)
  {
  }

  /** No effect exposes an object; only an edit can. */
  lemma UnexposedEffect(w: World, e: Effect)
    requires Sound(w) && Enabled(w, e) && !Exposed(w.net)
    ensures !Exposed(Perform(w, e).net)
  {
    if Records(e) { UnexposedRecords(w, e); }
    else if Deletes(e) { GroupDeletes(w, e); }
  }

  lemma UnexposedRecords(w: World, e: Effect)
    requires Sound(w) && Enabled(w, e) && Records(e) && !Exposed(w.net)
    ensures !Exposed(Perform(w, e).net)
  {
    hide Discover, OwnName, Tag;
  }

  /** A run of effects from an object that is not exposed seizes nothing more. */
  lemma {:induction false} UnexposedRun(w: World, a: seq<Move>, b: seq<Move>)
    requires Inv(RunOf(w, a)) && LegalRun(RunOf(w, a), b) && forall i :: 0 <= i < |b| ==> b[i].Do?
    requires !Exposed(RunOf(w, a).net) && SeizesOnlyClaimed(w, a)
    ensures !Exposed(RunOf(RunOf(w, a), b).net) && SeizesOnlyClaimed(w, a + b)
  {
    hide Enabled, Perform, Inv, Seizes, Claimed, Exposed;
    if b == [] {
      assert a + b == a;
    } else {
      var pre, m := b[..|b| - 1], b[|b| - 1];
      UnexposedRun(w, a, pre);
      var v := RunOf(RunOf(w, a), pre);
      InvRun(RunOf(w, a), pre);
      Append(w, a, pre);
      assert (a + b)[..|a + b| - 1] == a + pre;
      UnexposedMove(v, m);
    }
  }

  lemma UnexposedMove(v: World, m: Move)
    requires Inv(v) && Legal(v, m) && m.Do? && !Exposed(v.net)
    ensures !Seizes(v, m) && !Exposed(After(v, m).net)
  {
    hide Enabled, Perform, Once, ReadyMeans, Exposed;
    if Seizes(v, m) { OnlyExposedAreSeized(v, m); }
    UnexposedEffect(v, m.effect);
  }
}
