/**
 The bootstrap controller: it collects the machine configs of a cluster and points each of them
 at the cluster's network once that network is ready.
 */
module Bootstrap {
  import opened Names
  import opened Rules
  import opened State
  import opened Protocol
  import opened Runs

  const CONFIG_KIND := "OpentelekomcloudConfig"

  /** A machine pool as the cluster spells it: not an object, a malformed reference, or one. */
  datatype Pool = Opaque | Malformed | Ref(kind: string, name: string)

  /** The pool refers to a T-Cloud machine config by name. */
  predicate Refers(p: Pool, name: string) {
    p.Ref? && Lower(p.kind) == Lower(CONFIG_KIND) && name != "" && p.name == name
  }

  /** Exactly the pools whose kind is OpentelekomcloudConfig, in any case, with a name. */
  lemma RefersByKind(kind: string, called: string, name: string)
    ensures Refers(Ref(kind, called), name) <==> Lower(kind) == "opentelekomcloudconfig" && called == name && name != ""
  {
    assert Lower(CONFIG_KIND) == "opentelekomcloudconfig";
  }

  predicate NoDuplicates(s: seq<string>) {
    forall i, j :: 0 <= i < j < |s| ==> s[i] != s[j]
  }

  lemma NoDuplicatesAppend(s: seq<string>, x: string)
    requires NoDuplicates(s) && x !in s
    ensures NoDuplicates(s + [x])
  {
  }

  // ---------------------------------------------------------------- mentions, in order

  /** Some element of the list mentions the name. */
  predicate Mentioned<T(!new)>(s: seq<T>, says: (T, string) -> bool, name: string) {
    exists i :: 0 <= i < |s| && says(s[i], name)
  }

  /** `x` is mentioned before `y` is. */
  predicate Sooner<T(!new)>(s: seq<T>, says: (T, string) -> bool, x: string, y: string) {
    exists i :: 0 <= i < |s| && says(s[i], x) && forall j :: 0 <= j <= i ==> !says(s[j], y)
  }

  /** The names stand in the order of their first mention. */
  predicate InOrder<T(!new)>(s: seq<T>, says: (T, string) -> bool, names: seq<string>) {
    forall a, b :: 0 <= a < b < |names| ==> Sooner(s, says, names[a], names[b])
  }

  lemma MentionedNext<T(!new)>(s: seq<T>, says: (T, string) -> bool, i: nat, name: string)
    requires i < |s|
    ensures Mentioned(s[..i + 1], says, name) <==> Mentioned(s[..i], says, name) || says(s[i], name)
  {
    var now, next := s[..i], s[..i + 1];
    assert next == now + [s[i]];
    if Mentioned(now, says, name) {
      var j :| 0 <= j < |now| && says(now[j], name);
      assert says(next[j], name);
    }
    if says(s[i], name) {
      assert says(next[i], name);
    }
  }

  lemma InOrderNext<T(!new)>(s: seq<T>, says: (T, string) -> bool, i: nat, names: seq<string>)
    requires i < |s| && InOrder(s[..i], says, names)
    ensures InOrder(s[..i + 1], says, names)
  {
    var now, next := s[..i], s[..i + 1];
    forall a, b | 0 <= a < b < |names| ensures Sooner(next, says, names[a], names[b]) {
      assert Sooner(now, says, names[a], names[b]);
      var k :| 0 <= k < |now| && says(now[k], names[a]) && forall j :: 0 <= j <= k ==> !says(now[j], names[b]);
      assert says(next[k], names[a]) && forall j :: 0 <= j <= k ==> next[j] == now[j];
    }
  }

  /** A name mentioned for the first time goes to the end. */
  lemma InOrderAppend<T(!new)>(s: seq<T>, says: (T, string) -> bool, i: nat, names: seq<string>, x: string)
    requires i < |s| && InOrder(s[..i], says, names)
    requires (forall name :: name in names ==> Mentioned(s[..i], says, name)) && !Mentioned(s[..i], says, x)
    ensures InOrder(s[..i + 1], says, names + [x])
  {
    InOrderNext(s, says, i, names);
    var now, next := s[..i], s[..i + 1];
    forall a | 0 <= a < |names| ensures Sooner(next, says, names[a], x) {
      assert names[a] in names;
      var k :| 0 <= k < |now| && says(now[k], names[a]);
      assert says(next[k], names[a]) && forall j :: 0 <= j <= k ==> next[j] == now[j];
    }
  }

  // ---------------------------------------------------------------- the configs of a cluster

  /** The configs the pools refer to: each once, all of them, none else, in order of appearance. */
  ghost predicate RefsOf(pools: seq<Pool>, refs: seq<string>) {
    && NoDuplicates(refs) && InOrder(pools, Refers, refs)
    && forall name :: name in refs <==> Mentioned(pools, Refers, name)
  }

  method MachineConfigRefs(pools: seq<Pool>) returns (refs: Option<seq<string>>)
    ensures refs.None? <==> Malformed in pools
    ensures refs.Some? ==> RefsOf(pools, refs.value)
  {
    var names: seq<string> := [];
    var seen: map<string, bool> := map[];
    for i := 0 to |pools|
      invariant Malformed !in pools[..i]
      invariant RefsOf(pools[..i], names)
      invariant forall name :: name in seen <==> name in names
    {
      forall name ensures Mentioned(pools[..i + 1], Refers, name) <==> Mentioned(pools[..i], Refers, name) || Refers(pools[i], name) {
        MentionedNext(pools, Refers, i, name);
      }
      InOrderNext(pools, Refers, i, names);
      match pools[i] {
        case Opaque =>
        case Malformed => return None;
        case Ref(kind, name) =>
          if Lower(kind) == Lower(CONFIG_KIND) && name != "" && name !in seen {
            seen := seen[name := true];
            InOrderAppend(pools, Refers, i, names, name);
            NoDuplicatesAppend(names, name);
            names := names + [name];
          }
      }
    }
    assert pools[..|pools|] == pools;
    return Some(names);
  }

  /** A machine config of the namespace, and whether the cluster owns it. */
  datatype Candidate = Candidate(name: string, owned: bool)

  predicate Owned(c: Candidate, name: string) {
    c.owned && c.name == name
  }

  /** The references, then the owned configs that are not among them, in the order of the listing. */
  ghost predicate ConfigsOf(refs: seq<string>, listed: seq<Candidate>, names: seq<string>) {
    && refs <= names && (NoDuplicates(refs) ==> NoDuplicates(names)) && InOrder(listed, Owned, names[|refs|..])
    && (forall name :: name in names[|refs|..] <==> name !in refs && Mentioned(listed, Owned, name))
  }

  method MachineConfigNames(refs: seq<string>, listed: seq<Candidate>) returns (names: seq<string>)
    ensures ConfigsOf(refs, listed, names)
  {
    names := [];
    var seen: map<string, bool> := map[];
    for i := 0 to |refs|
      invariant names == refs[..i]
      invariant forall name :: name in seen <==> name in names
    {
      seen := seen[refs[i] := true];
      names := names + [refs[i]];
    }
    assert names == refs;
    for i := 0 to |listed|
      invariant ConfigsOf(refs, listed[..i], names)
      invariant forall name :: name in seen <==> name in names
    {
      forall name ensures Mentioned(listed[..i + 1], Owned, name) <==> Mentioned(listed[..i], Owned, name) || Owned(listed[i], name) {
        MentionedNext(listed, Owned, i, name);
      }
      assert names == refs + names[|refs|..];
      InOrderNext(listed, Owned, i, names[|refs|..]);
      if listed[i].name !in seen && listed[i].owned {
        seen := seen[listed[i].name := true];
        NewName(refs, listed, i, names);
        names := names + [listed[i].name];
      }
    }
    assert listed[..|listed|] == listed;
  }

  lemma NewName(refs: seq<string>, listed: seq<Candidate>, i: nat, names: seq<string>)
    requires i < |listed| && ConfigsOf(refs, listed[..i], names) && listed[i].owned && listed[i].name !in names
    ensures ConfigsOf(refs, listed[..i + 1], names + [listed[i].name])
  {
    var x, more := listed[i].name, names[|refs|..];
    assert names == refs + more;
    assert (names + [x])[|refs|..] == more + [x];
    InOrderAppend(listed, Owned, i, more, x);
    forall name ensures name in more + [x] <==> name !in refs && Mentioned(listed[..i + 1], Owned, name) {
      MentionedNext(listed, Owned, i, name);
    }
  }

  /** Set the desired fields one by one, in whatever order the map yields them. */
  method MergeFields(config: Config, desired: Config) returns (merged: Config, changed: bool)
    ensures merged == config + desired
    ensures changed <==> merged != config
  {
    merged, changed := config, false;
    var todo := desired.Keys;
    while todo != {}
      invariant todo <= desired.Keys
      invariant forall field :: field in merged <==> field in config || field in desired.Keys - todo
      invariant forall field :: field in merged ==>
                  merged[field] == if field in desired.Keys - todo then desired[field] else config[field]
      invariant changed <==> merged != config
    {
      var field :| field in todo;
      if field !in merged || merged[field] != desired[field] {
        merged := merged[field := desired[field]];
        changed := true;
        assert field in config ==> config[field] != merged[field];
      }
      todo := todo - {field};
    }
  }

  /** Where a round of patches stops: at a call that fails, with or without effect. */
  datatype Cut = Uncut | CutList | CutAt(index: nat, took: bool) | CutCluster | CutAnnotations(took: bool)

  /** The configs after the first `k` of `names` were patched. */
  function PatchedAll(configs: map<string, Config>, names: seq<string>, k: nat, fields: Config): (r: map<string, Config>)
    requires k <= |names|
    ensures r.Keys == configs.Keys
  {
    if k == 0 then configs else Patched(PatchedAll(configs, names, k - 1, fields), names[k - 1], fields)
  }

  /** Every field of `fields` is set in `c`. */
  predicate PointsAt(c: Config, fields: Config) {
    forall field :: field in fields ==> field in c && c[field] == fields[field]
  }

  predicate HasText(c: Config, field: string, text: string) {
    field in c && c[field] == Text(text)
  }

  predicate HasId(c: Config, field: string, id: Id) {
    field in c && c[field] == Ident(id)
  }

  /** The config makes its machines join this VPC, this subnet and this group, and no default group. */
  predicate Uses(c: Config, vpc: ResourceStatus, subnet: ResourceStatus, group: ResourceStatus) {
    && HasId(c, "vpcId", vpc.id) && HasText(c, "vpcName", vpc.name)
    && HasId(c, "subnetId", subnet.id) && HasText(c, "subnetName", subnet.name)
    && HasText(c, "secGroups", group.name)
    && HasText(c, "networkScope", "shared") && "skipDefaultSg" in c && c["skipDefaultSg"] == Flag(true)
  }

  /** To point at the network is to use what is on record. */
  lemma PointingIsUsing(c: Config, s: Status)
    ensures PointsAt(c, Shared(s)) <==> Uses(c, s.vpc, s.subnet, s.group)
  {
  }

  /** Every named config uses what is on record once it was patched. */
  lemma PatchedUses(configs: map<string, Config>, names: seq<string>, k: nat, s: Status, name: string)
    requires k <= |names| && name in configs && name in names[..k]
    ensures Uses(PatchedAll(configs, names, k, Shared(s))[name], s.vpc, s.subnet, s.group)
  {
    hide Shared, PatchedAll, Uses;
    PatchedPoints(configs, names, k, Shared(s), name);
    PointingIsUsing(configs[name] + Shared(s), s);
  }

  /** After a round of patches: each named config points at the network and keeps its other fields. */
  lemma {:induction false} PatchedPoints(configs: map<string, Config>, names: seq<string>, k: nat, fields: Config, name: string)
    requires k <= |names| && name in configs
    ensures var r := PatchedAll(configs, names, k, fields);
            r[name] == if name in names[..k] then configs[name] + fields else configs[name]
  {
    if k > 0 {
      PatchedPoints(configs, names, k - 1, fields, name);
      assert names[..k] == names[..k - 1] + [names[k - 1]];
    }
  }

  lemma AllUse(configs: map<string, Config>, names: seq<string>, s: Status)
    requires forall i :: 0 <= i < |names| ==> names[i] in configs
    ensures var r := PatchedAll(configs, names, |names|, Shared(s));
            forall name :: name in names ==> name in r && Uses(r[name], s.vpc, s.subnet, s.group)
  {
    hide Shared, PatchedAll, Uses;
    assert names[..|names|] == names;
    forall name | name in names ensures Uses(PatchedAll(configs, names, |names|, Shared(s))[name], s.vpc, s.subnet, s.group) {
      PatchedUses(configs, names, |names|, s, name);
    }
  }

  // ---------------------------------------------------------------- annotations

  function PolicyText(p: Policy): string {
    match p
    case Unset => ""
    case Managed => "Managed"
    case Observe => "Observe"
    case Adopt => "Adopt"
    case Abandon => "Abandon"
    case Unknown(text) => text
  }

  /** The group policy shown when the spec leaves it out. */
  function DefaultGroupPolicy(p: Policy): Policy {
    if p == Managed || p == Adopt then Managed else Observe
  }

  function Join(cidrs: seq<string>): string {
    if cidrs == [] then "" else if |cidrs| == 1 then cidrs[0] else cidrs[0] + "," + Join(cidrs[1..])
  }

  /** What the cluster says about its network. */
  function Labels(name: string, spec: Spec): map<string, string> {
    map["infrastructure.otc.t-systems.com/cluster-network" := name,
        "infrastructure.otc.t-systems.com/network-policy" := PolicyText(spec.policy),
        "ui.rancher/provider" := "opentelekomcloud",
        "infrastructure.otc.t-systems.com/ssh-allowed-cidrs" := Join(spec.cidrs),
        "infrastructure.otc.t-systems.com/security-group-policy" :=
          PolicyText(if spec.groupPolicy == Unset then DefaultGroupPolicy(spec.policy) else spec.groupPolicy),
        "infrastructure.otc.t-systems.com/security-group-name" := spec.groupName]
  }

  /** What the group policy annotation says: the spec's, or what the network policy implies. */
  lemma GroupPolicyShown(name: string, spec: Spec)
    ensures var shown := Labels(name, spec)["infrastructure.otc.t-systems.com/security-group-policy"];
            && (spec.groupPolicy == Managed ==> shown == "Managed")
            && (spec.groupPolicy == Observe ==> shown == "Observe")
            && (spec.groupPolicy == Unset && (spec.policy == Managed || spec.policy == Adopt) ==> shown == "Managed")
            && (spec.groupPolicy == Unset && (spec.policy == Observe || spec.policy == Unset) ==> shown == "Observe")
  {
  }

  /** The annotations name the network object, its policy, its group and the provider. */
  lemma NetworkShown(name: string, spec: Spec)
    ensures var l := Labels(name, spec);
            && l.Keys == {"infrastructure.otc.t-systems.com/cluster-network", "infrastructure.otc.t-systems.com/network-policy",
                          "ui.rancher/provider", "infrastructure.otc.t-systems.com/ssh-allowed-cidrs",
                          "infrastructure.otc.t-systems.com/security-group-policy",
                          "infrastructure.otc.t-systems.com/security-group-name"}
            && l["infrastructure.otc.t-systems.com/cluster-network"] == name
            && l["infrastructure.otc.t-systems.com/security-group-name"] == spec.groupName
            && l["ui.rancher/provider"] == "opentelekomcloud"
            && var shown := l["infrastructure.otc.t-systems.com/network-policy"];
               && (spec.policy == Managed ==> shown == "Managed") && (spec.policy == Observe ==> shown == "Observe")
               && (spec.policy == Adopt ==> shown == "Adopt") && (spec.policy == Abandon ==> shown == "Abandon")
  {
  }

  // ---------------------------------------------------------------- lists in an annotation

  predicate NoComma(s: string) {
    ',' !in s
  }

  /** The pieces between commas. */
  function Split(s: string): (r: seq<string>)
    ensures r != []
  {
    if s == "" then [""]
    else
      var rest := Split(s[1..]);
      if s[0] == ',' then [""] + rest else [[s[0]] + rest[0]] + rest[1..]
  }

  lemma {:induction false} SplitHead(x: string, s: string)
    requires NoComma(x)
    ensures Split(x + "," + s) == [x] + Split(s)
    ensures Split(x) == [x]
  {
    if x == "" {
      assert x + "," + s == "," + s && ("," + s)[1..] == s;
    } else {
      SplitHead(x[1..], s);
      assert (x + "," + s)[1..] == x[1..] + "," + s;
      assert x == [x[0]] + x[1..];
    }
  }

  /** The annotation tells the list: splitting what was joined gives the CIDRs back in order. */
  lemma {:induction false} ListSurvivesAnnotation(cidrs: seq<string>)
    requires cidrs != [] && forall x :: x in cidrs ==> NoComma(x)
    ensures Split(Join(cidrs)) == cidrs
  {
    assert cidrs[0] in cidrs;
    if |cidrs| == 1 {
      SplitHead(cidrs[0], "");
      assert cidrs == [cidrs[0]];
    } else {
      assert forall x :: x in cidrs[1..] ==> x in cidrs;
      ListSurvivesAnnotation(cidrs[1..]);
      SplitHead(cidrs[0], Join(cidrs[1..]));
      assert cidrs == [cidrs[0]] + cidrs[1..];
    }
  }

  /** So no two lists look alike. */
  lemma JoinedListsDiffer(a: seq<string>, b: seq<string>)
    requires (forall x :: x in a ==> NoComma(x)) && (forall x :: x in b ==> NoComma(x)) && a != [] && b != []
    requires Join(a) == Join(b)
    ensures a == b
  {
    ListSurvivesAnnotation(a);
    ListSurvivesAnnotation(b);
  }

  datatype Outcome = Retry | Rejected | Broken | Settled

  /** What the API server holds for a cluster: its machine configs and its annotations. */
  class ConfigStore {
    var configs: map<string, Config>
    var annotations: map<string, string>

    /** Patch one config; one that already has the desired fields is left alone and cannot fail. */
    method PatchMachineConfig(name: string, fields: Config, failed: bool, took: bool) returns (ok: bool)
      modifies this`configs
      ensures ok <==> name in old(configs) && (PointsAt(old(configs)[name], fields) || !failed)
      ensures configs == if ok || took then Patched(old(configs), name, fields) else old(configs)
      ensures name in old(configs) && PointsAt(old(configs)[name], fields) ==> configs == old(configs)
    {
      if name !in configs {
        return false;
      }
      var merged, changed := MergeFields(configs[name], fields);
      assert !changed <==> PointsAt(configs[name], fields);
      if !changed {
        assert configs[name := merged] == configs;
        return true;
      }
      if !failed || took {
        configs := configs[name := merged];
      }
      return !failed;
    }

    /** Annotate the cluster as it is now; other annotations are kept, and equal ones not written. */
    method PatchClusterNetworkAnnotations(name: string, spec: Spec, cut: Cut) returns (ok: bool)
      modifies this`annotations
      ensures var same := forall key :: key in Labels(name, spec) ==> key in old(annotations) && old(annotations)[key] == Labels(name, spec)[key];
              && (ok <==> !cut.CutCluster? && (same || !cut.CutAnnotations?))
              && (ok || (cut.CutAnnotations? && cut.took) ==> annotations == old(annotations) + Labels(name, spec))
              && (same || (!ok && !(cut.CutAnnotations? && cut.took)) ==> annotations == old(annotations))
    {
      if cut.CutCluster? {
        return false;
      }
      var labels := Labels(name, spec);
      if forall key :: key in labels.Keys ==> key in annotations && annotations[key] == labels[key] {
        assert annotations == annotations + labels;
        return true;
      }
      if !cut.CutAnnotations? || cut.took {
        annotations := annotations + labels;
      }
      return !cut.CutAnnotations?;
    }

    /**
     One pass of the bootstrap controller over a network it found: nothing unless the network is
     Ready at its current generation, then every config in turn until a call fails, and the
     cluster's annotations last.
     */
    method ReconcileConfigs(n: Network, called: string, refs: seq<string>, listed: seq<Candidate>, cut: Cut)
      returns (outcome: Outcome, ghost names: seq<string>, ghost done: nat)
      modifies this
      ensures ConfigsOf(refs, listed, names)
      ensures done <= |names| && configs == PatchedAll(old(configs), names, done, Shared(n.status))
      ensures done > 0 ==> Propagates(n)
      ensures forall i :: 0 <= i < done ==> names[i] in old(configs) || (cut.CutAt? && cut.index == i)
      ensures outcome.Rejected? <==>
                && n.status.ready && n.status.observed == n.generation
                && (n.status.vpc.id == 0 || n.status.subnet.id == 0 || n.status.group.id == 0 || n.status.group.name == "")
      ensures outcome.Retry? <==> !(n.status.ready && n.status.observed == n.generation)
      ensures outcome.Settled? ==>
                Propagates(n) && done == |names| && annotations == old(annotations) + Labels(called, n.spec)
      ensures outcome.Settled? ==> forall name :: name in names ==>
                name in configs && Uses(configs[name], n.status.vpc, n.status.subnet, n.status.group)
      ensures annotations != old(annotations) ==> done == |names| && annotations == old(annotations) + Labels(called, n.spec)
    {
      hide Labels, Shared, ConfigsOf, Uses;
      var all := MachineConfigNames(refs, listed);
      names, done := all, 0;
      if !n.status.ready || n.status.observed != n.generation {
        return Retry, names, done;
      }
      if !Complete(n) {
        return Rejected, names, done;
      }
      if cut.CutList? {
        return Broken, names, done;
      }
      for i := 0 to |all|
        invariant done == i && configs == PatchedAll(old(configs), names, i, Shared(n.status))
        invariant forall j :: 0 <= j < i ==> names[j] in old(configs)
        invariant annotations == old(annotations)
      {
        var failed := cut.CutAt? && cut.index == i;
        var took := failed && cut.took;
        var ok := PatchMachineConfig(all[i], Shared(n.status), failed, took);
        if ok || took {
          done := i + 1;
        }
        if !ok {
          return Broken, names, done;
        }
      }
      var ok := PatchClusterNetworkAnnotations(called, n.spec, cut);
      AllUse(old(configs), names, n.status);
      return if ok then Settled else Broken, names, done;
    }
  }

  // ---------------------------------------------------------------- the two controllers together

  function Patches(names: seq<string>, k: nat): seq<Move>
    requires k <= |names|
  {
    seq(k, i requires 0 <= i < k => Propagate(names[i]))
  }

  /** A round of patches is a run of legal moves, so it interleaves with the network controller. */
  lemma {:induction false} PatchesAreMoves(w: World, names: seq<string>, k: nat)
    requires k <= |names| && Propagates(w.net) && forall i :: 0 <= i < k ==> names[i] in w.env.configs
    ensures LegalRun(w, Patches(names, k))
    ensures RunOf(w, Patches(names, k)) == w.(env := w.env.(configs := PatchedAll(w.env.configs, names, k, Shared(w.net.status))))
  {
    hide Propagates, Shared, Perform, Enabled;
    if k > 0 {
      PatchesAreMoves(w, names, k - 1);
      assert Patches(names, k) == Patches(names, k - 1) + [Propagate(names[k - 1])];
      OneMove(RunOf(w, Patches(names, k - 1)), Propagate(names[k - 1]));
      Append(w, Patches(names, k - 1), [Propagate(names[k - 1])]);
    }
  }

  /** In a live object that reports Ready the completeness check never fails. */
  lemma CompletenessNeverFails(w: World, ms: seq<Move>)
    requires Initial(w) && LegalRun(w, ms)
    requires var n := RunOf(w, ms).net; !n.deleting && n.status.ready && n.status.observed == n.generation
    ensures Propagates(RunOf(w, ms).net)
  {
    hide LegalRun, RunOf;
    Reachable(w, ms);
  }

  /** Nobody but the bootstrap controller changes or drops machine configs. */
  predicate ConfigsLeftAlone(w: World, ms: seq<Move>) {
    forall i :: 0 <= i < |ms| && ms[i].Surround? ==> ms[i].env.configs == RunOf(w, ms[..i]).env.configs
  }

  lemma LeftAloneBefore(w: World, ms: seq<Move>)
    requires ms != [] && ConfigsLeftAlone(w, ms)
    ensures ConfigsLeftAlone(w, ms[..|ms| - 1])
  {
    var pre := ms[..|ms| - 1];
    forall i | 0 <= i < |pre| && pre[i].Surround? ensures pre[i].env.configs == RunOf(w, pre[..i]).env.configs {
      assert pre[..i] == ms[..i];
    }
  }

  /**
   No pool is ever pointed at a different network: with Managed or Adopt fixed, a config that
   points at the network once points at those same resources ever after, through machine churn,
   failures, edits and further rounds of patches.
   */
  lemma ConfigsStayPut(w: World, a: seq<Move>, b: seq<Move>, p: Policy, name: string)
    requires p in {Managed, Adopt} && FixedHistory(w, a, b, p, false) && ConfigsLeftAlone(RunOf(w, a), b)
    requires var v := RunOf(w, a);
             && Propagates(v.net) && name in v.env.configs
             && Uses(v.env.configs[name], v.net.status.vpc, v.net.status.subnet, v.net.status.group)
    ensures var s, u := RunOf(w, a).net.status, RunOf(RunOf(w, a), b);
            name in u.env.configs && Uses(u.env.configs[name], s.vpc, s.subnet, s.group)
  {
    hide Initial, Legal, Fits, Shared, Propagates, FixedHistory, ConfigsLeftAlone, Uses;
    var v, u := RunOf(w, a), RunOf(RunOf(w, a), b);
    PointingIsUsing(v.env.configs[name], v.net.status);
    StaysAtNetwork(w, a, b, p, name);
    PointingIsUsing(u.env.configs[name], v.net.status);
  }

  lemma {:induction false} StaysAtNetwork(w: World, a: seq<Move>, b: seq<Move>, p: Policy, name: string)
    requires p in {Managed, Adopt} && FixedHistory(w, a, b, p, false) && ConfigsLeftAlone(RunOf(w, a), b)
    requires var v := RunOf(w, a); Propagates(v.net) && name in v.env.configs && PointsAt(v.env.configs[name], Shared(v.net.status))
    ensures var v, u := RunOf(w, a), RunOf(RunOf(w, a), b);
            name in u.env.configs && PointsAt(u.env.configs[name], Shared(v.net.status))
    decreases |b|
  {
    hide Initial, Legal, Fits, Shared, Propagates;
    if b != [] {
      var pre, m := b[..|b| - 1], b[|b| - 1];
      var v := RunOf(w, a);
      LeftAloneBefore(v, b);
      assert EditsFit(pre, p, false);
      StaysAtNetwork(w, a, pre, p, name);
      var u := RunOf(v, pre);
      if m.Propagate? {
        LegalPropagates(u, m.config);
        EveryConfigGetsTheSameNetwork(w, a, pre, p);
      }
      StaysPointed(u, m, name, Shared(v.net.status));
    }
  }

  lemma LegalPropagates(u: World, name: string)
    requires Legal(u, Propagate(name))
    ensures Propagates(u.net)
  {
  }

  lemma StaysPointed(u: World, m: Move, name: string, fields: Config)
    requires name in u.env.configs && PointsAt(u.env.configs[name], fields)
    requires m.Propagate? ==> Shared(u.net.status) == fields
    requires m.Surround? ==> m.env.configs == u.env.configs
    ensures var v := After(u, m); name in v.env.configs && PointsAt(v.env.configs[name], fields)
  {
    hide Shared;
    if m.Do? {
      EffectKeepsConfigs(u, m.effect);
    }
  }

  lemma EffectKeepsConfigs(u: World, e: Effect)
    ensures Perform(u, e).env == u.env
  {
  }
}
