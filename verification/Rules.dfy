/**
 The security-group rule reconciler: the rules an RKE2 cluster wants, the SSH rules that
 an edit makes obsolete, and the pass that adds what is missing before it removes what is
 obsolete.
 */
module Rules {
  import opened Faults
  import opened Names
  import opened Sorting

  type Id = nat  // cloud identifiers; 0 stands for the empty identifier

  /** A rule as the controller asks for it; `remote` is 0 when the rule names a CIDR. */
  datatype Rule = Rule(protocol: string, fromPort: int, toPort: int, cidr: string, remote: Id)

  /** A rule as the cloud reports it; `group` is the name of the remote group, if any. */
  datatype CloudRule = CloudRule(id: Id, protocol: string, fromPort: int, toPort: int, cidr: string, group: string)

  // ---------------------------------------------------------------- wanted and obsolete

  function SSHRule(cidr: string): Rule {
    Rule("tcp", 22, 22, cidr, 0)
  }

  function SelfRule(group: Id, protocol: string, fromPort: int, toPort: int): Rule {
    Rule(protocol, fromPort, toPort, "", group)
  }

  function SSHRules(cidrs: seq<string>): (r: seq<Rule>)
    ensures |r| == |cidrs|
    ensures forall i :: 0 <= i < |cidrs| ==> r[i] == SSHRule(cidrs[i])
  {
    seq(|cidrs|, i requires 0 <= i < |cidrs| => SSHRule(cidrs[i]))
  }

  const NODE_PORTS: seq<(int, int)> := [(2379, 2381), (6443, 6443), (9345, 9345), (10250, 10250), (30000, 32767)]

  function NodeRules(group: Id): seq<Rule> {
    seq(|NODE_PORTS|, i requires 0 <= i < |NODE_PORTS| => SelfRule(group, "tcp", NODE_PORTS[i].0, NODE_PORTS[i].1))
  }

  function CNIRules(group: Id, cni: string): seq<Rule> {
    if cni == "" || cni == "canal" then
      [SelfRule(group, "udp", 8472, 8472), SelfRule(group, "tcp", 9099, 9099)]
    else if cni == "flannel" then
      [SelfRule(group, "udp", 4789, 4789)]
    else if cni == "calico" then
      [SelfRule(group, "tcp", 179, 179), SelfRule(group, "udp", 4789, 4789),
       SelfRule(group, "tcp", 5473, 5473), SelfRule(group, "tcp", 9098, 9099)]
    else []
  }

  function Wanted(group: Id, cidrs: seq<string>, cni: string): seq<Rule> {
    SSHRules(cidrs) + NodeRules(group) + CNIRules(group, cni)
  }

  /** The CIDRs of `previous` that `desired` drops, in the order of `previous`. */
  function Dropped(previous: seq<string>, desired: seq<string>): (r: seq<string>)
    ensures forall c :: c in r <==> c in previous && c !in desired
  {
    if previous == [] then []
    else
      var rest := Dropped(previous[..|previous| - 1], desired);
      var c := previous[|previous| - 1];
      assert forall x :: x in previous <==> x in previous[..|previous| - 1] || x == c;
      if c in desired then rest else rest + [c]
  }

  method RKE2Rules(group: Id, cidrs: seq<string>, cni: string) returns (rules: seq<Rule>)
    ensures rules == Wanted(group, cidrs, cni)
  {
    rules := [];
    for i := 0 to |cidrs|
      invariant rules == SSHRules(cidrs[..i])
    {
      rules := rules + [SSHRule(cidrs[i])];
    }
    assert cidrs[..|cidrs|] == cidrs;
    for i := 0 to |NODE_PORTS|
      invariant rules == SSHRules(cidrs) + NodeRules(group)[..i]
    {
      rules := rules + [SelfRule(group, "tcp", NODE_PORTS[i].0, NODE_PORTS[i].1)];
    }
    assert NodeRules(group)[..|NODE_PORTS|] == NodeRules(group);
    match cni {
      case "" | "canal" =>
        rules := rules + [SelfRule(group, "udp", 8472, 8472), SelfRule(group, "tcp", 9099, 9099)];
      case "flannel" =>
        rules := rules + [SelfRule(group, "udp", 4789, 4789)];
      case "calico" =>
        rules := rules + [SelfRule(group, "tcp", 179, 179), SelfRule(group, "udp", 4789, 4789),
                          SelfRule(group, "tcp", 5473, 5473), SelfRule(group, "tcp", 9098, 9099)];
      case _ =>
    }
  }

  /** The removal requests for the dropped CIDRs, in byte order. */
  function Obsolete(previous: seq<string>, desired: seq<string>): (r: seq<Rule>)
    ensures forall o :: o in r <==> exists c :: c in previous && c !in desired && o == SSHRule(c)
  {
    var dropped := Dropped(previous, desired);
    var sorted := Sort(LexLeq, dropped);
    SameMembers(sorted, dropped);
    var r := SSHRules(sorted);
    assert forall c :: c in sorted ==> SSHRule(c) in r by {
      forall c | c in sorted ensures SSHRule(c) in r {
        var i :| 0 <= i < |sorted| && sorted[i] == c;
        assert r[i] == SSHRule(c);
      }
    }
    r
  }

  method ObsoleteSSHRules(previous: seq<string>, desired: seq<string>) returns (rules: seq<Rule>)
    ensures rules == Obsolete(previous, desired)
  {
    hide Sort, LexLeq;
    var wanted: map<string, bool> := map[];
    for i := 0 to |desired|
      invariant forall c :: c in wanted <==> c in desired[..i]
    {
      wanted := wanted[desired[i] := true];
    }
    var obsolete: seq<string> := [];
    for i := 0 to |previous|
      invariant obsolete == Dropped(previous[..i], desired)
    {
      assert previous[..i + 1][..i] == previous[..i];
      if previous[i] !in wanted {
        obsolete := obsolete + [previous[i]];
      }
    }
    assert previous[..|previous|] == previous;
    obsolete := Sort(LexLeq, obsolete);
    rules := [];
    for i := 0 to |obsolete|
      invariant rules == SSHRules(obsolete[..i])
    {
      rules := rules + [SSHRule(obsolete[i])];
    }
    assert obsolete[..|obsolete|] == obsolete;
  }

  // ---------------------------------------------------------------- matching

  /** An existing rule satisfies a request: protocols fold case, the rest is exact. */
  predicate Matches(name: string, existing: CloudRule, wanted: Rule) {
    && Lower(existing.protocol) == Lower(wanted.protocol)
    && existing.fromPort == wanted.fromPort
    && existing.toPort == wanted.toPort
    && existing.cidr == wanted.cidr
    && (wanted.remote == 0 || existing.group == name)
  }

  predicate Has(name: string, rules: seq<CloudRule>, wanted: Rule) {
    exists i :: 0 <= i < |rules| && Matches(name, rules[i], wanted)
  }

  /** The rule the cloud makes of a request: it reports the group name, not its ID. */
  function Made(name: string, id: Id, r: Rule): CloudRule {
    CloudRule(id, r.protocol, r.fromPort, r.toPort, r.cidr, if r.remote == 0 then "" else name)
  }

  /** Rule IDs are issued once: distinct, and below the cloud's next ID. */
  predicate GoodRules(rules: seq<CloudRule>, next: Id) {
    && (forall i :: 0 <= i < |rules| ==> rules[i].id < next)
    && (forall i, j :: 0 <= i < j < |rules| ==> rules[i].id != rules[j].id)
  }

  // ---------------------------------------------------------------- the pass

  /** The rules created while the first `n` requests are served; `snap` is what was read. */
  function Created(name: string, snap: seq<CloudRule>, wanted: seq<Rule>, n: nat, next: Id): (r: seq<CloudRule>)
    requires n <= |wanted|
    ensures forall k :: 0 <= k < |r| ==> r[k].id == next + k
    ensures |r| <= n
  {
    if n == 0 then []
    else
      var before := Created(name, snap, wanted, n - 1, next);
      if Has(name, snap, wanted[n - 1]) then before
      else before + [Made(name, next + |before|, wanted[n - 1])]
  }

  function Without(rules: seq<CloudRule>, ids: set<Id>): (r: seq<CloudRule>)
    ensures forall x :: x in r <==> x in rules && x.id !in ids
  {
    if rules == [] then []
    else
      var rest := Without(rules[1..], ids);
      assert rules == [rules[0]] + rules[1..];
      if rules[0].id in ids then rest else [rules[0]] + rest
  }

  /** One row of the removal scan: the first `j` rules that were read against one obsolete rule. */
  function Scan(name: string, snap: seq<CloudRule>, obsolete: Rule, j: nat, rules: seq<CloudRule>): (r: seq<CloudRule>)
    requires j <= |snap|
    ensures forall x :: x in r <==> (x in rules && forall k ::
      0 <= k < j && snap[k].id == x.id ==> !Matches(name, snap[k], obsolete))
  {
    if j == 0 then rules
    else
      var before := Scan(name, snap, obsolete, j - 1, rules);
      if Matches(name, snap[j - 1], obsolete) then Without(before, {snap[j - 1].id}) else before
  }

  /** The rows of the removal scan for the first `i` obsolete rules. */
  function Scans(name: string, snap: seq<CloudRule>, obsolete: seq<Rule>, i: nat, rules: seq<CloudRule>): (r: seq<CloudRule>)
    requires i <= |obsolete|
    ensures forall x :: x in r <==> (x in rules && forall a, k ::
      0 <= a < i && 0 <= k < |snap| && snap[k].id == x.id ==> !Matches(name, snap[k], obsolete[a]))
  {
    if i == 0 then rules
    else Scan(name, snap, obsolete[i - 1], |snap|, Scans(name, snap, obsolete, i - 1, rules))
  }

  datatype RulePass = RulePass(rules: seq<CloudRule>, next: Id, ok: bool)

  predicate AddFails(name: string, snap: seq<CloudRule>, wanted: seq<Rule>, f: Fault) {
    f.at.AddRule? && f.at.wanted < |wanted| && !Has(name, snap, wanted[f.at.wanted])
  }

  /** How many requests are served before the first scan ends. */
  function AddCount(name: string, snap: seq<CloudRule>, wanted: seq<Rule>, f: Fault): (n: nat)
    ensures n <= |wanted|
  {
    if !AddFails(name, snap, wanted, f) then |wanted| else if f.took then f.at.wanted + 1 else f.at.wanted
  }

  /** First scan: create what is missing, up to the call that fails. */
  function AddPhase(name: string, snap: seq<CloudRule>, wanted: seq<Rule>, next: Id, f: Fault): RulePass {
    var new' := Created(name, snap, wanted, AddCount(name, snap, wanted, f), next);
    RulePass(snap + new', next + |new'|, !AddFails(name, snap, wanted, f))
  }

  /** Second scan: remove what is obsolete among the rules that were read. */
  function RemovePhase(name: string, snap: seq<CloudRule>, obsolete: seq<Rule>, rules: seq<CloudRule>,
                       next: Id, f: Fault): RulePass
  {
    if f.at.RemoveRule? && f.at.obsolete < |obsolete| && f.at.existing < |snap| &&
       Matches(name, snap[f.at.existing], obsolete[f.at.obsolete]) then
      var rows := Scans(name, snap, obsolete, f.at.obsolete, rules);
      var j := if f.took then f.at.existing + 1 else f.at.existing;
      RulePass(Scan(name, snap, obsolete[f.at.obsolete], j, rows), next, false)
    else
      RulePass(Scans(name, snap, obsolete, |obsolete|, rules), next, true)
  }

  /** Every wanted rule that is missing is created, then every obsolete one is removed. */
  function ReconcileRules(name: string, snap: seq<CloudRule>, wanted: seq<Rule>, obsolete: seq<Rule>,
                          next: Id, f: Fault): RulePass
  {
    var added := AddPhase(name, snap, wanted, next, f);
    if !added.ok then added else RemovePhase(name, snap, obsolete, added.rules, added.next, f)
  }

  /** The two scans over the rules that were read, one API call per create or delete. */
  method EnsureRules(name: string, snap: seq<CloudRule>, wanted: seq<Rule>, obsolete: seq<Rule>, first: Id, f: Fault)
    returns (rules: seq<CloudRule>, next: Id, ok: bool)
    ensures RulePass(rules, next, ok) == ReconcileRules(name, snap, wanted, obsolete, first, f)
  {
    rules, next, ok := AddMissing(name, snap, wanted, first, f);
    if ok {
      rules, ok := RemoveObsolete(name, snap, obsolete, rules, next, f);
    }
  }

  method AddMissing(name: string, snap: seq<CloudRule>, wanted: seq<Rule>, first: Id, f: Fault)
    returns (rules: seq<CloudRule>, next: Id, ok: bool)
    ensures RulePass(rules, next, ok) == AddPhase(name, snap, wanted, first, f)
  {
    hide Has, Made;
    rules, next, ok := snap, first, true;
    for i := 0 to |wanted|
      invariant rules == snap + Created(name, snap, wanted, i, first)
      invariant next == first + |Created(name, snap, wanted, i, first)|
      invariant f.at.AddRule? && f.at.wanted < i ==> Has(name, snap, wanted[f.at.wanted])
    {
      var has := HasRule(name, snap, wanted[i]);
      if !has {
        var failed := Hit(f, AddRule(i));
        if !failed || f.took {
          rules := rules + [Made(name, next, wanted[i])];
          next := next + 1;
        }
        if failed {
          return rules, next, false;
        }
      }
    }
  }

  method RemoveObsolete(name: string, snap: seq<CloudRule>, obsolete: seq<Rule>, current: seq<CloudRule>, ghost next: Id, f: Fault)
    returns (rules: seq<CloudRule>, ok: bool)
    ensures RulePass(rules, next, ok) == RemovePhase(name, snap, obsolete, current, next, f)
  {
    hide Matches;
    rules, ok := current, true;
    for i := 0 to |obsolete|
      invariant rules == Scans(name, snap, obsolete, i, current)
      invariant f.at.RemoveRule? && f.at.obsolete < i && f.at.existing < |snap| ==>
                  !Matches(name, snap[f.at.existing], obsolete[f.at.obsolete])
    {
      ghost var row := rules;
      for j := 0 to |snap|
        invariant rules == Scan(name, snap, obsolete[i], j, row)
        invariant f.at.RemoveRule? && f.at.obsolete == i && f.at.existing < j ==>
                    !Matches(name, snap[f.at.existing], obsolete[i])
      {
        if Matches(name, snap[j], obsolete[i]) {
          var failed := Hit(f, RemoveRule(i, j));
          if !failed || f.took {
            rules := Without(rules, {snap[j].id});
          }
          if failed {
            return rules, false;
          }
        }
      }
    }
  }

  method HasRule(name: string, rules: seq<CloudRule>, wanted: Rule) returns (r: bool)
    ensures r == Has(name, rules, wanted)
  {
    for i := 0 to |rules|
      invariant forall k :: 0 <= k < i ==> !Matches(name, rules[k], wanted)
    {
      if Matches(name, rules[i], wanted) {
        return true;
      }
    }
    return false;
  }

}
