/**
 Several Managed networks side by side in one cloud, each with its own reconciler, their
 effects interleaved in any order.
 */
module Isolation {
  import opened Names
  import opened Rules
  import opened Adoption
  import opened State
  import opened Protocol
  import opened Invariants
  import opened Runs
  import opened Faults
  import opened Reconcile
  import opened Refinement

  // ---------------------------------------------------------------- two objects

  /** The cloud's name for a resource. */
  function NameIn(c: Cloud, k: Kind, id: Id): string
    requires Exists(c, k, id)
  {
    match k case VPCs => c.vpcs[id] case Subnets => c.subnets[id].name case Groups => c.groups[id].name
  }

  /** Nothing that `a` recorded carries a name of `b`'s. */
  ghost predicate Foreign(a: World, b: World, k: Kind) {
    var id := Recorded(a.net, k).id;
    id != 0 && Exists(a.cloud, k, id) ==> !OwnName(ShortToken(b.net.uid), NameIn(a.cloud, k, id))
  }

  predicate Disjoint(a: World, b: World, k: Kind) {
    Recorded(a.net, k).id != 0 ==> Recorded(a.net, k).id != Recorded(b.net, k).id
  }

  ghost predicate Alone(w: World) {
    Inv(w) && Fits(w.net.spec, Managed, false)
  }

  ghost predicate Strangers(a: World, b: World) {
    && ShortToken(a.net.uid) != ShortToken(b.net.uid)
    && forall k :: Foreign(a, b, k) && Foreign(b, a, k) && Disjoint(a, b, k)
  }

  lemma StrangersBothWays(a: World, b: World)
    requires Strangers(a, b)
    ensures Strangers(b, a)
  {
    forall k ensures Foreign(b, a, k) && Foreign(a, b, k) && Disjoint(b, a, k) {
      assert Foreign(a, b, k) && Foreign(b, a, k) && Disjoint(a, b, k);
    }
  }

  /** A name belongs to one short token only. */
  lemma NotBoth(u: string, v: string, name: string)
    requires ShortToken(u) != ShortToken(v) && OwnName(ShortToken(u), name)
    ensures !OwnName(ShortToken(v), name)
  {
    if OwnName(ShortToken(v), name) {
      OwnNamesSeparate(ShortToken(u), ShortToken(v), name);
    }
  }

  /** What one object's effect does to the cloud, another object may rely on. */
  lemma EffectIsRelied(w: World, e: Effect, u: string)
    requires Alone(w) && Enabled(w, e) && ShortToken(u) != ShortToken(w.net.uid) && Inv(Perform(w, e))
    ensures Rely(ShortToken(u), w.cloud, Perform(w, e).cloud)
  {
    hide Once, ReadyMeans;
    if Creates(e) { CreateIsRelied(w, e, u); }
    else if Deletes(e) || e.EditRules? { DeleteIsRelied(w, e, ShortToken(u)); }
    else { OtherIsRelied(w, e, ShortToken(u)); }
  }

  lemma CreateIsRelied(w: World, e: Effect, u: string)
    requires Sound(w) && Enabled(w, e) && Creates(e) && ShortToken(u) != ShortToken(w.net.uid) && Sound(Perform(w, e))
    ensures Rely(ShortToken(u), w.cloud, Perform(w, e).cloud)
  {
    hide GoodRules, Cloud.Valid, OwnName;
    TokenIsUID(w);
    NotBoth(w.net.uid, u, e.name);
  }

  lemma TokenIsUID(w: World)
    requires Sound(w) && w.net.status.token != ""
    ensures Tag(w.net) == ShortToken(w.net.uid)
  {
  }

  lemma DeleteIsRelied(w: World, e: Effect, t: string)
    requires Sound(w) && Enabled(w, e) && (Deletes(e) || e.EditRules?) && Sound(Perform(w, e))
    ensures Rely(t, w.cloud, Perform(w, e).cloud)
  {
    hide GoodRules, Cloud.Valid, OwnName, Cleared;
  }

  lemma OtherIsRelied(w: World, e: Effect, t: string)
    requires Sound(w) && !Creates(e) && !Deletes(e) && !e.EditRules?
    ensures Rely(t, w.cloud, Perform(w, e).cloud)
  {
    hide GoodRules, OwnName;
  }

  /** A move of the first object, with the second only watching the cloud change. */
  lemma FirstMoves(a: World, b: World, m: Move)
    requires Alone(a) && Alone(b) && a.cloud == b.cloud && Strangers(a, b) && Legal(a, m)
    requires m.Edit? ==> Fits(m.spec, Managed, false)
    requires m.Outside? ==> Rely(ShortToken(b.net.uid), a.cloud, m.cloud)
    ensures var v := After(a, m); Alone(v) && Alone(b.(cloud := v.cloud)) && Strangers(v, b.(cloud := v.cloud))
  {
    hide Enabled, Perform, Foreign, Disjoint, Rely, Sound, Once, ReadyMeans, Fits;
    InvStep(a, m);
    var v := After(a, m);
    if m.Do? {
      EffectIsRelied(a, m.effect, b.net.uid);
    } else {
      UnchangedIsRelied(a, ShortToken(b.net.uid));
    }
    InvStep(b, Outside(v.cloud));
    StillAlone(a, m);
    forall k ensures Foreign(v, b.(cloud := v.cloud), k) && Foreign(b.(cloud := v.cloud), v, k) && Disjoint(v, b.(cloud := v.cloud), k) {
      assert Foreign(a, b, k) && Foreign(b, a, k) && Disjoint(a, b, k);
      if m.Do? {
        ForeignEffect(a, b, m.effect, k);
      } else {
        ForeignMove(a, b, m, k);
      }
    }
  }

  lemma UnchangedIsRelied(w: World, t: string)
    requires Inv(w)
    ensures Rely(t, w.cloud, w.cloud)
  {
  }

  lemma StillAlone(w: World, m: Move)
    requires Alone(w) && Inv(After(w, m)) && (m.Edit? ==> Fits(m.spec, Managed, false))
    ensures Alone(After(w, m)) && After(w, m).net.uid == w.net.uid
  {
    hide Inv;
  }

  lemma ForeignMove(a: World, b: World, m: Move, k: Kind)
    requires Inv(a) && Inv(b) && !m.Do? && Legal(a, m) && a.cloud == b.cloud
    requires Rely(ShortToken(b.net.uid), a.cloud, After(a, m).cloud)
    requires Foreign(a, b, k) && Foreign(b, a, k) && Disjoint(a, b, k)
    ensures var v := After(a, m);
            Foreign(v, b.(cloud := v.cloud), k) && Foreign(b.(cloud := v.cloud), v, k) && Disjoint(v, b.(cloud := v.cloud), k)
  {
    hide OwnName, GoodRules, Once, ReadyMeans;
  }

  /** One effect of `a`: what either had on record stays foreign to the other. */
  lemma ForeignEffect(a: World, b: World, e: Effect, k: Kind)
    requires Alone(a) && Inv(b) && Enabled(a, e) && a.cloud == b.cloud && ShortToken(a.net.uid) != ShortToken(b.net.uid)
    requires Foreign(a, b, k) && Foreign(b, a, k) && Disjoint(a, b, k)
    ensures var v := Perform(a, e);
            Foreign(v, b.(cloud := v.cloud), k) && Foreign(b.(cloud := v.cloud), v, k) && Disjoint(v, b.(cloud := v.cloud), k)
  {
    hide Once, ReadyMeans, Enabled, Foreign, Disjoint, Perform;
    if Creates(e) { ForeignCreate(a, b, e, k); }
    else if Deletes(e) { ForeignDelete(a, b, e, k); }
    else if Records(e) { ForeignRecord(a, b, e, k); }
    else { ForeignOther(a, b, e, k); }
  }

  lemma ForeignCreate(a: World, b: World, e: Effect, k: Kind)
    requires Sound(a) && Sound(b) && Enabled(a, e) && Creates(e) && a.cloud == b.cloud
    requires Foreign(a, b, k) && Foreign(b, a, k) && Disjoint(a, b, k)
    ensures var v := Perform(a, e);
            Foreign(v, b.(cloud := v.cloud), k) && Foreign(b.(cloud := v.cloud), v, k) && Disjoint(v, b.(cloud := v.cloud), k)
  {
    hide OwnName, GoodRules;
  }

  lemma ForeignDelete(a: World, b: World, e: Effect, k: Kind)
    requires Sound(a) && Sound(b) && Enabled(a, e) && Deletes(e) && a.cloud == b.cloud
    requires Foreign(a, b, k) && Foreign(b, a, k) && Disjoint(a, b, k)
    ensures var v := Perform(a, e);
            Foreign(v, b.(cloud := v.cloud), k) && Foreign(b.(cloud := v.cloud), v, k) && Disjoint(v, b.(cloud := v.cloud), k)
  {
    hide OwnName, GoodRules, Cleared, Cloud.Valid;
  }

  lemma ForeignRecord(a: World, b: World, e: Effect, k: Kind)
    requires Sound(a) && Sound(b) && Fits(a.net.spec, Managed, false) && Enabled(a, e) && Records(e) && a.cloud == b.cloud
    requires ShortToken(a.net.uid) != ShortToken(b.net.uid)
    requires Foreign(a, b, k) && Foreign(b, a, k) && Disjoint(a, b, k)
    ensures var v := Perform(a, e);
            Foreign(v, b.(cloud := v.cloud), k) && Foreign(b.(cloud := v.cloud), v, k) && Disjoint(v, b.(cloud := v.cloud), k)
  {
    hide OwnName, GoodRules, Discover;
    TokenIsUID(a);
    var c, id := a.cloud, e.id;
    NotBoth(a.net.uid, b.net.uid,
            if e.RecordVPC? then c.vpcs[id] else if e.RecordSubnet? then c.subnets[id].name else c.groups[id].name);
  }

  lemma ForeignOther(a: World, b: World, e: Effect, k: Kind)
    requires Sound(a) && Sound(b) && Enabled(a, e) && a.cloud == b.cloud && (Paperwork(e) || e.EditRules?)
    requires Foreign(a, b, k) && Foreign(b, a, k) && Disjoint(a, b, k)
    ensures var v := Perform(a, e);
            Foreign(v, b.(cloud := v.cloud), k) && Foreign(b.(cloud := v.cloud), v, k) && Disjoint(v, b.(cloud := v.cloud), k)
  {
    hide OwnName, GoodRules, RulesWanted, Network.NothingManaged;
  }

  /** Two objects that only watch a change which both may rely on. */
  lemma BothWatch(a: World, b: World, d: Cloud)
    requires Alone(a) && Alone(b) && a.cloud == b.cloud && Strangers(a, b)
    requires Rely(ShortToken(a.net.uid), a.cloud, d) && Rely(ShortToken(b.net.uid), b.cloud, d)
    ensures Alone(a.(cloud := d)) && Alone(b.(cloud := d)) && Strangers(a.(cloud := d), b.(cloud := d))
  {
    hide Inv, Rely;
    FirstMoves(a, b, Outside(d));
  }

  // ---------------------------------------------------------------- many objects

  datatype Object = Object(net: Network, env: Env)

  /** Objects by their UIDs, in one cloud. */
  datatype System = System(objects: map<string, Object>, cloud: Cloud)

  function Seen(s: System, u: string): World
    requires u in s.objects
  {
    World(s.objects[u].net, s.cloud, s.objects[u].env)
  }

  /** A move of one object, or one of the world around all of them. */
  datatype Act = Act(who: string, move: Move)

  /** Cloud changes from outside spare the names of every object; policies stay Managed. */
  ghost predicate Allowed(s: System, x: Act) {
    && x.who in s.objects && Legal(Seen(s, x.who), x.move)
    && (x.move.Edit? ==> Fits(x.move.spec, Managed, false))
    && (x.move.Outside? ==> forall u :: u in s.objects ==> Rely(ShortToken(u), s.cloud, x.move.cloud))
  }

  function Acted(s: System, x: Act): System
    requires x.who in s.objects
  {
    var v := After(Seen(s, x.who), x.move);
    System(s.objects[x.who := Object(v.net, v.env)], v.cloud)
  }

  /** Different objects have different short tokens. */
  predicate TokensDiffer(s: System) {
    forall u, v :: u in s.objects && v in s.objects && u != v ==> ShortToken(u) != ShortToken(v)
  }

  ghost predicate SystemInv(s: System) {
    && TokensDiffer(s)
    && (forall u :: u in s.objects ==> s.objects[u].net.uid == u && Alone(Seen(s, u)))
    && (forall u, v :: u in s.objects && v in s.objects && u != v ==> Strangers(Seen(s, u), Seen(s, v)))
  }

  /** New Managed objects in a cloud that holds none of their names. */
  ghost predicate NewSystem(s: System) {
    && TokensDiffer(s)
    && forall u :: u in s.objects ==>
         s.objects[u].net.uid == u && Initial(Seen(s, u)) && Fits(s.objects[u].net.spec, Managed, false)
  }

  lemma NewSystemInv(s: System)
    requires NewSystem(s)
    ensures SystemInv(s)
  {
    hide Once, ReadyMeans, Sound, Initial, Strangers, Fits;
    forall u | u in s.objects ensures Alone(Seen(s, u)) {
      Fresh(Seen(s, u));
    }
    forall u, v | u in s.objects && v in s.objects && u != v ensures Strangers(Seen(s, u), Seen(s, v)) {
      Fresh(Seen(s, u));
      Fresh(Seen(s, v));
      NothingRecorded(Seen(s, u), Seen(s, v));
    }
  }

  lemma Fresh(w: World)
    requires Initial(w)
    ensures Inv(w) && forall k :: Recorded(w.net, k) == NO_RESOURCE
  {
  }

  lemma NothingRecorded(a: World, b: World)
    requires ShortToken(a.net.uid) != ShortToken(b.net.uid)
    requires forall k :: Recorded(a.net, k) == NO_RESOURCE && Recorded(b.net, k) == NO_RESOURCE
    ensures Strangers(a, b)
  {
    forall k ensures Foreign(a, b, k) && Foreign(b, a, k) && Disjoint(a, b, k) {
      assert Recorded(a.net, k) == NO_RESOURCE && Recorded(b.net, k) == NO_RESOURCE;
    }
  }

  lemma ActIsRelied(s: System, x: Act, u: string)
    requires SystemInv(s) && Allowed(s, x) && u in s.objects && u != x.who
    ensures Rely(ShortToken(u), s.cloud, Acted(s, x).cloud)
  {
    hide Rely, Inv, Perform, Enabled, Fits;
    var a := Seen(s, x.who);
    InvStep(a, x.move);
    if x.move.Do? {
      EffectIsRelied(a, x.move.effect, u);
    } else if !x.move.Outside? {
      UnchangedIsRelied(a, ShortToken(u));
    }
  }

  lemma SystemStep(s: System, x: Act)
    requires SystemInv(s) && Allowed(s, x)
    ensures SystemInv(Acted(s, x))
  {
    hide Rely, Inv, After, Fits, Strangers, Legal;
    var t := Acted(s, x);
    var w := x.who;
    IdentityStep(Seen(s, w), x.move);
    forall u | u in t.objects ensures t.objects[u].net.uid == u && Alone(Seen(t, u)) {
      if u == w {
        MoverAlone(s, x);
      } else {
        WatcherAlone(s, x, u);
      }
    }
    forall u, v | u in t.objects && v in t.objects && u != v ensures Strangers(Seen(t, u), Seen(t, v)) {
      if u == w {
        FirstMoves(Seen(s, u), Seen(s, v), x.move);
      } else if v == w {
        StrangersBothWays(Seen(s, u), Seen(s, v));
        FirstMoves(Seen(s, v), Seen(s, u), x.move);
        StrangersBothWays(Seen(t, v), Seen(t, u));
      } else {
        ActIsRelied(s, x, u);
        ActIsRelied(s, x, v);
        BothWatch(Seen(s, u), Seen(s, v), t.cloud);
      }
    }
  }

  lemma MoverAlone(s: System, x: Act)
    requires SystemInv(s) && Allowed(s, x)
    ensures Alone(Seen(Acted(s, x), x.who))
  {
    hide Rely, Sound, Once, ReadyMeans, Fits, Legal, After, Strangers;
    InvStep(Seen(s, x.who), x.move);
    StillAlone(Seen(s, x.who), x.move);
  }

  lemma WatcherAlone(s: System, x: Act, u: string)
    requires SystemInv(s) && Allowed(s, x) && u in s.objects && u != x.who
    ensures Alone(Seen(Acted(s, x), u))
  {
    hide Rely, Sound, Once, ReadyMeans, Fits, Strangers;
    ActIsRelied(s, x, u);
    InvStep(Seen(s, u), Outside(Acted(s, x).cloud));
  }

  ghost predicate AllowedRun(s: System, xs: seq<Act>) {
    xs == [] || (AllowedRun(s, xs[..|xs| - 1]) && Allowed(SystemRun(s, xs[..|xs| - 1]), xs[|xs| - 1]))
  }

  ghost function SystemRun(s: System, xs: seq<Act>): System {
    if xs == [] then s
    else
      var t := SystemRun(s, xs[..|xs| - 1]);
      if xs[|xs| - 1].who in t.objects then Acted(t, xs[|xs| - 1]) else t
  }

  lemma {:induction false} SystemInvRun(s: System, xs: seq<Act>)
    requires SystemInv(s) && AllowedRun(s, xs)
    ensures SystemInv(SystemRun(s, xs))
  {
    hide SystemInv, Allowed, Acted;
    if xs != [] {
      SystemInvRun(s, xs[..|xs| - 1]);
      ActorExists(SystemRun(s, xs[..|xs| - 1]), xs[|xs| - 1]);
      SystemStep(SystemRun(s, xs[..|xs| - 1]), xs[|xs| - 1]);
    }
  }

  lemma ActorExists(s: System, x: Act)
    requires Allowed(s, x)
    ensures x.who in s.objects
  {
  }

  /** In every interleaved run the resources on record of two objects are disjoint. */
  lemma RecordsAreDisjoint(s: System, xs: seq<Act>, u: string, v: string, k: Kind)
    requires NewSystem(s) && AllowedRun(s, xs)
    requires var t := SystemRun(s, xs); u in t.objects && v in t.objects && u != v && Recorded(t.objects[u].net, k).id != 0
    ensures var t := SystemRun(s, xs); Recorded(t.objects[u].net, k).id != Recorded(t.objects[v].net, k).id
  {
    hide NewSystem, AllowedRun, SystemRun;
    NewSystemInv(s);
    SystemInvRun(s, xs);
    var t := SystemRun(s, xs);
    assert Disjoint(Seen(t, u), Seen(t, v), k);
  }

  /** The resource `id` looks the same in both clouds. */
  predicate SameIn(c: Cloud, d: Cloud, k: Kind, id: Id) {
    match k
    case VPCs => id in c.vpcs ==> id in d.vpcs && d.vpcs[id] == c.vpcs[id]
    case Subnets => id in c.subnets ==> id in d.subnets && d.subnets[id] == c.subnets[id]
    case Groups => id in c.groups ==> id in d.groups && d.groups[id] == c.groups[id]
  }

  lemma EffectSpares(w: World, e: Effect, k: Kind, id: Id)
    requires Sound(w) && Enabled(w, e) && id < w.cloud.next && (id == 0 || id != Recorded(w.net, k).id)
    ensures SameIn(w.cloud, Perform(w, e).cloud, k, id)
  {
    hide OwnName, GoodRules, Discover, Cleared;
  }

  /**
   Isolation: in every interleaved run, whatever one object's controller does next, every
   resource another object has on record stays in the cloud exactly as it was, rules included.
   */
  lemma NobodyTouchesAnothersResources(s: System, xs: seq<Act>, u: string, v: string, e: Effect, k: Kind)
    requires NewSystem(s) && AllowedRun(s, xs) && u != v && v in SystemRun(s, xs).objects
    requires Allowed(SystemRun(s, xs), Act(u, Do(e)))
    ensures var t := SystemRun(s, xs);
            SameIn(t.cloud, Acted(t, Act(u, Do(e))).cloud, k, Recorded(t.objects[v].net, k).id)
  {
    hide NewSystem, AllowedRun, SystemRun, Enabled, Perform, SameIn;
    NewSystemInv(s);
    SystemInvRun(s, xs);
    var t := SystemRun(s, xs);
    var a, b := Seen(t, u), Seen(t, v);
    assert Alone(a) && Alone(b) && Disjoint(b, a, k);
    assert a.cloud == b.cloud && SoundResource(Recorded(b.net, k), b.cloud.next);
    EffectSpares(a, e, k, Recorded(b.net, k).id);
  }

  // ---------------------------------------------------------------- whole passes interleaved

  /** One object's whole pass, cut at any call, or a move of the world around the objects. */
  datatype SystemTurn = PassOf(who: string, fault: Fault) | Around(act: Act)

  /** The system in which the object `u` and the cloud look as in `v`. */
  function Put(s: System, u: string, v: World): System {
    System(s.objects[u := Object(v.net, v.env)], v.cloud)
  }

  ghost predicate AllowedStep(s: System, x: SystemTurn) {
    match x
    case PassOf(u, _) => u in s.objects
    case Around(act) => !act.move.Do? && Allowed(s, act)
  }

  ghost function Stepped(s: System, x: SystemTurn): System
    requires AllowedStep(s, x)
  {
    match x
    case PassOf(u, f) => Put(s, u, Pass(Seen(s, u), f).w)
    case Around(act) => Acted(s, act)
  }

  /** `t` is reached from `s` by allowed steps. */
  ghost predicate Leads(s: System, xs: seq<SystemTurn>, t: System)
    decreases xs
  {
    if xs == [] then s == t else AllowedStep(s, xs[0]) && Leads(Stepped(s, xs[0]), xs[1..], t)
  }

  function Acts(u: string, ms: seq<Move>): seq<Act> {
    seq(|ms|, i requires 0 <= i < |ms| => Act(u, ms[i]))
  }

  /** One object's effects are acts of the system. */
  lemma {:induction false} EffectsAreActs(s: System, u: string, ms: seq<Move>)
    requires u in s.objects && LegalRun(Seen(s, u), ms) && forall i :: 0 <= i < |ms| ==> ms[i].Do?
    ensures AllowedRun(s, Acts(u, ms)) && SystemRun(s, Acts(u, ms)) == Put(s, u, RunOf(Seen(s, u), ms))
  {
    hide Legal, After;
    if ms == [] {
      assert s.objects[u := s.objects[u]] == s.objects;
    } else {
      var pre, m := ms[..|ms| - 1], ms[|ms| - 1];
      EffectsAreActs(s, u, pre);
      assert Acts(u, ms)[..|ms| - 1] == Acts(u, pre);
      var t := Put(s, u, RunOf(Seen(s, u), pre));
      assert Seen(t, u) == RunOf(Seen(s, u), pre);
      var v := After(RunOf(Seen(s, u), pre), m);
      assert t.objects[u := Object(v.net, v.env)] == s.objects[u := Object(v.net, v.env)];
    }
  }

  /** Acts of one object spare what another has on record. */
  lemma {:induction false} EffectsSpare(s: System, u: string, ms: seq<Move>, v: string, k: Kind)
    requires SystemInv(s) && u in s.objects && v in s.objects && u != v
    requires LegalRun(Seen(s, u), ms) && forall i :: 0 <= i < |ms| ==> ms[i].Do?
    ensures SameIn(s.cloud, RunOf(Seen(s, u), ms).cloud, k, Recorded(s.objects[v].net, k).id)
  {
    hide SystemInv, AllowedRun, SystemRun, Legal, After, Perform, Enabled;
    if ms != [] {
      var pre, m := ms[..|ms| - 1], ms[|ms| - 1];
      EffectsSpare(s, u, pre, v, k);
      EffectsAreActs(s, u, pre);
      SystemInvRun(s, Acts(u, pre));
      var t := Put(s, u, RunOf(Seen(s, u), pre));
      OneEffectSpares(t, u, m, v, k);
    }
  }

  lemma OneEffectSpares(t: System, u: string, m: Move, v: string, k: Kind)
    requires SystemInv(t) && u in t.objects && v in t.objects && u != v && m.Do? && Legal(Seen(t, u), m)
    ensures SameIn(t.cloud, After(Seen(t, u), m).cloud, k, Recorded(t.objects[v].net, k).id)
  {
    hide Enabled, Perform, SameIn, Once, ReadyMeans, Fits;
    var a, b := Seen(t, u), Seen(t, v);
    assert Alone(a) && Alone(b) && Disjoint(b, a, k);
    assert a.cloud == b.cloud && SoundResource(Recorded(b.net, k), b.cloud.next);
    EffectSpares(a, m.effect, k, Recorded(b.net, k).id);
  }

  lemma StepKeepsInv(s: System, x: SystemTurn)
    requires SystemInv(s) && AllowedStep(s, x)
    ensures SystemInv(Stepped(s, x))
  {
    hide SystemInv, Pass, Allowed, Acted, LegalRun, Inv;
    match x
    case PassOf(u, f) =>
      SeenInv(s, u);
      var ms := PassSteps(Seen(s, u), f);
      EffectsAreActs(s, u, ms);
      SystemInvRun(s, Acts(u, ms));
    case Around(act) =>
      SystemStep(s, act);
  }

  lemma SeenInv(s: System, u: string)
    requires SystemInv(s) && u in s.objects
    ensures Inv(Seen(s, u))
  {
    hide Inv;
    assert Alone(Seen(s, u));
  }

  lemma {:induction false} LeadsKeepsInv(s: System, xs: seq<SystemTurn>, t: System)
    requires SystemInv(s) && Leads(s, xs, t)
    ensures SystemInv(t)
    decreases xs
  {
    hide SystemInv, AllowedStep, Stepped;
    if xs != [] {
      StepKeepsInv(s, xs[0]);
      LeadsKeepsInv(Stepped(s, xs[0]), xs[1..], t);
    }
  }

  /**
   Isolation of whole passes: however the passes of any number of objects interleave, each cut at
   any call, the next pass of one leaves every resource another has on record as it was, rules
   included, and their records stay disjoint.
   */
  lemma PassesAreIsolated(s: System, xs: seq<SystemTurn>, t: System, u: string, f: Fault, v: string, k: Kind)
    requires NewSystem(s) && Leads(s, xs, t) && u in t.objects && v in t.objects && u != v
    ensures var w, r := Pass(Seen(t, u), f).w, Recorded(t.objects[v].net, k);
            && SameIn(t.cloud, w.cloud, k, r.id)
            && (r.id != 0 ==> Recorded(w.net, k).id != r.id)
  {
    hide NewSystem, Leads, SystemInv, Pass, LegalRun, Inv, SameIn, Stepped;
    NewSystemInv(s);
    LeadsKeepsInv(s, xs, t);
    SeenInv(t, u);
    var ms := PassSteps(Seen(t, u), f);
    EffectsSpare(t, u, ms, v, k);
    StepKeepsInv(t, PassOf(u, f));
    PutDisjoint(t, u, Pass(Seen(t, u), f).w, v, k);
    SteppedIsPut(t, u, f);
  }

  lemma SteppedIsPut(t: System, u: string, f: Fault)
    requires u in t.objects
    ensures AllowedStep(t, PassOf(u, f)) && Stepped(t, PassOf(u, f)) == Put(t, u, Pass(Seen(t, u), f).w)
  {
    hide Pass;
  }

  lemma PutDisjoint(t: System, u: string, w: World, v: string, k: Kind)
    requires u in t.objects && v in t.objects && u != v
    ensures SystemInv(Put(t, u, w)) && Recorded(t.objects[v].net, k).id != 0 ==>
              Recorded(w.net, k).id != Recorded(t.objects[v].net, k).id
  {
    hide Inv, Foreign;
    if SystemInv(Put(t, u, w)) {
      var p := Put(t, u, w);
      assert Strangers(Seen(p, v), Seen(p, u));
      assert Disjoint(Seen(p, v), Seen(p, u), k);
    }
  }

  /** The UIDs of the objects are UIDs, and no two begin with the same eight characters. */
  predicate UIDsDiffer(s: System) {
    && (forall u :: u in s.objects ==> LikeUID(u))
    && (forall u, v :: u in s.objects && v in s.objects && u != v ==> u[..8] != v[..8])
  }

  lemma TokensOfUIDs(s: System)
    requires UIDsDiffer(s)
    ensures TokensDiffer(s)
  {
    forall u, v | u in s.objects && v in s.objects && u != v ensures ShortToken(u) != ShortToken(v) {
      ShortTokenOfUID(u);
      ShortTokenOfUID(v);
    }
  }

  /** Objects that are new, Managed, and told apart by the first eight characters of their UIDs. */
  ghost predicate NewUIDSystem(s: System) {
    && UIDsDiffer(s)
    && forall u :: u in s.objects ==>
         s.objects[u].net.uid == u && Initial(Seen(s, u)) && Fits(s.objects[u].net.spec, Managed, false)
  }

  /** Isolation, with its hypothesis on the UIDs themselves. */
  lemma UIDsIsolate(s: System, xs: seq<SystemTurn>, t: System, u: string, f: Fault, v: string, k: Kind)
    requires NewUIDSystem(s) && Leads(s, xs, t) && u in t.objects && v in t.objects && u != v
    ensures var w, r := Pass(Seen(t, u), f).w, Recorded(t.objects[v].net, k);
            && SameIn(t.cloud, w.cloud, k, r.id)
            && (r.id != 0 ==> Recorded(w.net, k).id != r.id)
  {
    hide Leads, Pass, SameIn, Initial, Fits, UIDsDiffer, TokensDiffer;
    TokensOfUIDs(s);
    PassesAreIsolated(s, xs, t, u, f, v, k);
  }
}
