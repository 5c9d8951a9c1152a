/**
 What the rule reconciler achieves: the result of a successful pass as one set equation,
 what every cut pass keeps, and what a pass does to the CIDRs that can reach SSH.
 */
module RuleProofs {
  import opened Faults
  import opened Names
  import opened Rules

  // ---------------------------------------------------------------- the set equation

  predicate Doomed(name: string, r: CloudRule, obsolete: seq<Rule>) {
    exists a :: 0 <= a < |obsolete| && Matches(name, r, obsolete[a])
  }

  /** The rules no removal request matches, in their old order and with their old IDs. */
  function Survivors(name: string, rules: seq<CloudRule>, obsolete: seq<Rule>): seq<CloudRule> {
    if rules == [] then []
    else (if Doomed(name, rules[0], obsolete) then [] else [rules[0]]) + Survivors(name, rules[1..], obsolete)
  }

  /** On success the rules are the old survivors followed by one new rule per missing request. */
  lemma RulePassEquation(name: string, snap: seq<CloudRule>, wanted: seq<Rule>, obsolete: seq<Rule>, next: Id, f: Fault)
    requires GoodRules(snap, next)
    requires ReconcileRules(name, snap, wanted, obsolete, next, f).ok
    ensures ReconcileRules(name, snap, wanted, obsolete, next, f).rules ==
            Survivors(name, snap, obsolete) + Created(name, snap, wanted, |wanted|, next)
  {
    var new' := Created(name, snap, wanted, |wanted|, next);
    var ids := ScansAsWithout(name, snap, obsolete, |obsolete|, snap + new');
    WithoutConcat(snap, new', ids);
    WithoutNothing(new', ids);
    forall r | r in snap ensures r.id in ids <==> Doomed(name, r, obsolete) {
      var l :| 0 <= l < |snap| && snap[l] == r;
      if r.id in ids {
        var a, k :| 0 <= a < |obsolete| && 0 <= k < |snap| && snap[k].id == r.id && Matches(name, snap[k], obsolete[a]);
        assert k == l;
      }
    }
    WithoutSurvivors(name, snap, ids, obsolete);
  }

  lemma {:induction false} WithoutSurvivors(name: string, rules: seq<CloudRule>, ids: set<Id>, obsolete: seq<Rule>)
    requires forall r :: r in rules ==> (r.id in ids <==> Doomed(name, r, obsolete))
    ensures Without(rules, ids) == Survivors(name, rules, obsolete)
  {
    if rules != [] {
      assert rules[0] in rules;
      WithoutSurvivors(name, rules[1..], ids, obsolete);
    }
  }

  lemma {:induction false} ScanAsWithout(name: string, snap: seq<CloudRule>, obsolete: Rule, j: nat, rules: seq<CloudRule>)
    returns (ids: set<Id>)
    requires j <= |snap|
    ensures Scan(name, snap, obsolete, j, rules) == Without(rules, ids)
    ensures forall id :: id in ids <==> exists k :: 0 <= k < j && snap[k].id == id && Matches(name, snap[k], obsolete)
  {
    if j == 0 {
      ids := {};
      WithoutNothing(rules, {});
    } else {
      var before := ScanAsWithout(name, snap, obsolete, j - 1, rules);
      if Matches(name, snap[j - 1], obsolete) {
        ids := before + {snap[j - 1].id};
        WithoutTwice(rules, before, {snap[j - 1].id});
      } else {
        ids := before;
      }
    }
  }

  lemma {:induction false} ScansAsWithout(name: string, snap: seq<CloudRule>, obsolete: seq<Rule>, i: nat, rules: seq<CloudRule>)
    returns (ids: set<Id>)
    requires i <= |obsolete|
    ensures Scans(name, snap, obsolete, i, rules) == Without(rules, ids)
    ensures forall id :: id in ids <==> exists a, k ::
      0 <= a < i && 0 <= k < |snap| && snap[k].id == id && Matches(name, snap[k], obsolete[a])
  {
    if i == 0 {
      ids := {};
      WithoutNothing(rules, {});
    } else {
      var before := ScansAsWithout(name, snap, obsolete, i - 1, rules);
      var row := ScanAsWithout(name, snap, obsolete[i - 1], |snap|, Without(rules, before));
      ids := before + row;
      WithoutTwice(rules, before, row);
    }
  }

  lemma {:induction false} WithoutNothing(rules: seq<CloudRule>, ids: set<Id>)
    requires forall i :: 0 <= i < |rules| ==> rules[i].id !in ids
    ensures Without(rules, ids) == rules
  {
    if rules != [] {
      WithoutNothing(rules[1..], ids);
    }
  }

  lemma {:induction false} WithoutTwice(rules: seq<CloudRule>, a: set<Id>, b: set<Id>)
    ensures Without(Without(rules, a), b) == Without(rules, a + b)
  {
    if rules != [] {
      WithoutTwice(rules[1..], a, b);
      if rules[0].id !in a {
        assert ([rules[0]] + Without(rules[1..], a))[1..] == Without(rules[1..], a);
      }
    }
  }

  lemma {:induction false} WithoutConcat(a: seq<CloudRule>, b: seq<CloudRule>, ids: set<Id>)
    ensures Without(a + b, ids) == Without(a, ids) + Without(b, ids)
  {
    if a == [] {
      assert a + b == b;
    } else {
      assert (a + b)[1..] == a[1..] + b;
      WithoutConcat(a[1..], b, ids);
    }
  }

  // ---------------------------------------------------------------- created rules

  /** Every new rule serves a request that was missing. */
  lemma {:induction false} OriginOf(name: string, snap: seq<CloudRule>, wanted: seq<Rule>, n: nat, next: Id, k: nat)
    returns (i: nat)
    requires n <= |wanted| && k < |Created(name, snap, wanted, n, next)|
    ensures i < n && !Has(name, snap, wanted[i])
    ensures Created(name, snap, wanted, n, next)[k] == Made(name, next + k, wanted[i])
  {
    if k < |Created(name, snap, wanted, n - 1, next)| {
      i := OriginOf(name, snap, wanted, n - 1, next, k);
    } else {
      i := n - 1;
    }
  }

  /** Every missing request gets a new rule. */
  lemma {:induction false} RuleFor(name: string, snap: seq<CloudRule>, wanted: seq<Rule>, n: nat, next: Id, i: nat)
    returns (k: nat)
    requires n <= |wanted| && i < n && !Has(name, snap, wanted[i])
    ensures k < |Created(name, snap, wanted, n, next)|
    ensures Created(name, snap, wanted, n, next)[k] == Made(name, next + k, wanted[i])
  {
    if i < n - 1 {
      k := RuleFor(name, snap, wanted, n - 1, next, i);
    } else {
      k := |Created(name, snap, wanted, n - 1, next)|;
    }
  }

  /** With distinct CIDRs no two new rules serve one request. */
  lemma {:induction false} CreatedOnce(name: string, snap: seq<CloudRule>, group: Id, cidrs: seq<string>, cni: string, n: nat, next: Id,
                                       k: nat, l: nat, w: nat)
    requires forall a, b :: 0 <= a < b < |cidrs| ==> cidrs[a] != cidrs[b]
    requires n <= |Wanted(group, cidrs, cni)| && w < |Wanted(group, cidrs, cni)|
    requires k < l < |Created(name, snap, Wanted(group, cidrs, cni), n, next)|
    ensures !(&& Matches(name, Created(name, snap, Wanted(group, cidrs, cni), n, next)[k], Wanted(group, cidrs, cni)[w])
              && Matches(name, Created(name, snap, Wanted(group, cidrs, cni), n, next)[l], Wanted(group, cidrs, cni)[w]))
  {
    var wanted := Wanted(group, cidrs, cni);
    if l < |Created(name, snap, wanted, n - 1, next)| {
      CreatedOnce(name, snap, group, cidrs, cni, n - 1, next, k, l, w);
    } else {
      var i := OriginOf(name, snap, wanted, n - 1, next, k);
      if w != i {
        WantedApart(name, next + k, group, cidrs, cni, i, w);
      } else {
        WantedApart(name, next + l, group, cidrs, cni, n - 1, w);
      }
    }
  }

  lemma MadeMatches(name: string, id: Id, r: Rule)
    ensures Matches(name, Made(name, id, r), r)
  {
  }

  lemma HasMember(name: string, rules: seq<CloudRule>, r: CloudRule, wanted: Rule)
    requires r in rules && Matches(name, r, wanted)
    ensures Has(name, rules, wanted)
  {
  }

  /** Two requests of one wanted list are never served by the same new rule. */
  lemma WantedApart(name: string, id: Id, group: Id, cidrs: seq<string>, cni: string, i: nat, j: nat)
    requires forall a, b :: 0 <= a < b < |cidrs| ==> cidrs[a] != cidrs[b]
    requires i < |Wanted(group, cidrs, cni)| && j < |Wanted(group, cidrs, cni)| && i != j
    ensures !Matches(name, Made(name, id, Wanted(group, cidrs, cni)[i]), Wanted(group, cidrs, cni)[j])
  {
    var w := Wanted(group, cidrs, cni);
    SelfRulesApart(group, cidrs, cni);
  }

  lemma SelfRulesApart(group: Id, cidrs: seq<string>, cni: string)
    ensures forall i :: |cidrs| <= i < |Wanted(group, cidrs, cni)| ==> Wanted(group, cidrs, cni)[i].fromPort != 22
    ensures forall i, j :: |cidrs| <= i < j < |Wanted(group, cidrs, cni)| ==>
              Wanted(group, cidrs, cni)[i].fromPort != Wanted(group, cidrs, cni)[j].fromPort
  {
    var w, n, c := Wanted(group, cidrs, cni), NodeRules(group), CNIRules(group, cni);
    forall i | |cidrs| <= i < |w| ensures w[i] == (n + c)[i - |cidrs|] {
    }
    forall i, j | 0 <= i < j < |n + c| ensures (n + c)[i].fromPort != (n + c)[j].fromPort {
    }
  }

  // ---------------------------------------------------------------- every cut pass

  /** No existing rule is both asked for and asked away. */
  lemma WantedNeverObsolete(name: string, e: CloudRule, group: Id, previous: seq<string>, cidrs: seq<string>, cni: string, w: Rule, o: Rule)
    requires w in Wanted(group, cidrs, cni) && o in Obsolete(previous, cidrs)
    requires Matches(name, e, w)
    ensures !Matches(name, e, o)
  {
    var wanted := Wanted(group, cidrs, cni);
    var i :| 0 <= i < |wanted| && wanted[i] == w;
    SelfRulesApart(group, cidrs, cni);
    if i < |cidrs| {
      assert w == SSHRule(cidrs[i]);
    }
  }

  lemma {:induction false} WithoutGood(rules: seq<CloudRule>, ids: set<Id>, next: Id)
    requires GoodRules(rules, next)
    ensures GoodRules(Without(rules, ids), next)
  {
    if rules != [] {
      WithoutGood(rules[1..], ids, next);
      var rest := Without(rules[1..], ids);
      forall x | x in rest ensures x.id != rules[0].id {
        assert x in rules[1..];
      }
    }
  }

  /** A removal scan cut at any call takes away some doomed rules by ID; one that ends takes all. */
  lemma RemovedIds(name: string, snap: seq<CloudRule>, obsolete: seq<Rule>, rules: seq<CloudRule>, next: Id, f: Fault)
    returns (ids: set<Id>)
    ensures RemovePhase(name, snap, obsolete, rules, next, f).rules == Without(rules, ids)
    ensures forall id :: id in ids ==> exists k :: 0 <= k < |snap| && snap[k].id == id && Doomed(name, snap[k], obsolete)
    ensures RemovePhase(name, snap, obsolete, rules, next, f).ok ==>
              forall k :: 0 <= k < |snap| && Doomed(name, snap[k], obsolete) ==> snap[k].id in ids
  {
    if RemovePhase(name, snap, obsolete, rules, next, f).ok {
      ids := ScansAsWithout(name, snap, obsolete, |obsolete|, rules);
    } else {
      var rows := ScansAsWithout(name, snap, obsolete, f.at.obsolete, rules);
      var j := if f.took then f.at.existing + 1 else f.at.existing;
      var row := ScanAsWithout(name, snap, obsolete[f.at.obsolete], j, Without(rules, rows));
      ids := rows + row;
      WithoutTwice(rules, rows, row);
    }
  }

  lemma AddedGood(name: string, snap: seq<CloudRule>, wanted: seq<Rule>, n: nat, next: Id)
    requires GoodRules(snap, next) && n <= |wanted|
    ensures GoodRules(snap + Created(name, snap, wanted, n, next), next + |Created(name, snap, wanted, n, next)|)
  {
  }

  /** A pass cut at any call leaves distinct rule IDs that the cloud has issued. */
  lemma RulePassGood(name: string, snap: seq<CloudRule>, wanted: seq<Rule>, obsolete: seq<Rule>, next: Id, f: Fault)
    requires GoodRules(snap, next)
    ensures ReconcileRules(name, snap, wanted, obsolete, next, f).next >= next
    ensures GoodRules(ReconcileRules(name, snap, wanted, obsolete, next, f).rules,
                      ReconcileRules(name, snap, wanted, obsolete, next, f).next)
  {
    var n := AddCount(name, snap, wanted, f);
    AddedGood(name, snap, wanted, n, next);
    var added := AddPhase(name, snap, wanted, next, f);
    if added.ok {
      var ids := RemovedIds(name, snap, obsolete, added.rules, added.next, f);
      WithoutGood(added.rules, ids, added.next);
    }
  }

  /** A rule of the result was read or is new; new rules are exact copies of requests. */
  lemma RulePassSources(name: string, snap: seq<CloudRule>, wanted: seq<Rule>, obsolete: seq<Rule>, next: Id, f: Fault, r: CloudRule)
    requires r in ReconcileRules(name, snap, wanted, obsolete, next, f).rules
    ensures r in snap || exists i :: 0 <= i < |wanted| && !Has(name, snap, wanted[i]) && r == Made(name, r.id, wanted[i])
  {
    var added := AddPhase(name, snap, wanted, next, f);
    assert r in added.rules;
    if r !in snap {
      var k :| 0 <= k < |added.rules| && added.rules[k] == r;
      var i := OriginOf(name, snap, wanted, AddCount(name, snap, wanted, f), next, k - |snap|);
    }
  }

  /** No existing rule meets both a request and a removal request. */
  ghost predicate Apart(name: string, wanted: seq<Rule>, obsolete: seq<Rule>) {
    forall e, w, o :: w in wanted && o in obsolete && Matches(name, e, w) ==> !Matches(name, e, o)
  }

  lemma WantedApartFromObsolete(name: string, group: Id, previous: seq<string>, cidrs: seq<string>, cni: string)
    ensures Apart(name, Wanted(group, cidrs, cni), Obsolete(previous, cidrs))
  {
    forall e, w, o | w in Wanted(group, cidrs, cni) && o in Obsolete(previous, cidrs) && Matches(name, e, w)
      ensures !Matches(name, e, o)
    {
      WantedNeverObsolete(name, e, group, previous, cidrs, cni, w, o);
    }
  }

  /** Once the first scan is over, every request is met, and the second scan never unmeets one. */
  lemma AllWantedMet(name: string, snap: seq<CloudRule>, wanted: seq<Rule>, obsolete: seq<Rule>, next: Id, f: Fault, i: nat)
    requires GoodRules(snap, next) && Apart(name, wanted, obsolete)
    requires AddPhase(name, snap, wanted, next, f).ok && i < |wanted|
    ensures Has(name, ReconcileRules(name, snap, wanted, obsolete, next, f).rules, wanted[i])
  {
    var added := AddPhase(name, snap, wanted, next, f);
    var ids := RemovedIds(name, snap, obsolete, added.rules, added.next, f);
    var k := Meeting(name, snap, wanted, next, i);
    var r := added.rules[k];
    MetNotDoomed(name, wanted, obsolete, r, i);
    assert r.id !in ids;
    HasMember(name, Without(added.rules, ids), r, wanted[i]);
  }

  lemma MetNotDoomed(name: string, wanted: seq<Rule>, obsolete: seq<Rule>, r: CloudRule, i: nat)
    requires Apart(name, wanted, obsolete) && i < |wanted| && Matches(name, r, wanted[i])
    ensures !Doomed(name, r, obsolete)
  {
    assert wanted[i] in wanted;
    forall a | 0 <= a < |obsolete| ensures !Matches(name, r, obsolete[a]) {
      assert obsolete[a] in obsolete;
    }
  }

  lemma Meeting(name: string, snap: seq<CloudRule>, wanted: seq<Rule>, next: Id, i: nat) returns (k: nat)
    requires GoodRules(snap, next) && i < |wanted|
    ensures k < |snap + Created(name, snap, wanted, |wanted|, next)|
    ensures Matches(name, (snap + Created(name, snap, wanted, |wanted|, next))[k], wanted[i])
    ensures k >= |snap| ==> (snap + Created(name, snap, wanted, |wanted|, next))[k].id >= next
  {
    if Has(name, snap, wanted[i]) {
      k :| 0 <= k < |snap| && Matches(name, snap[k], wanted[i]);
    } else {
      var l := RuleFor(name, snap, wanted, |wanted|, next, i);
      MadeMatches(name, next + l, wanted[i]);
      k := |snap| + l;
    }
  }

  /**
   What holds after any prefix of the calls of a rule pass: a rule that was read is gone only
   when a removal request matches it, and by then every wanted rule exists.
   */
  lemma AccessNeverDips(name: string, snap: seq<CloudRule>, wanted: seq<Rule>, obsolete: seq<Rule>, next: Id, f: Fault, r: CloudRule)
    requires GoodRules(snap, next) && Apart(name, wanted, obsolete)
    requires r in snap && r !in ReconcileRules(name, snap, wanted, obsolete, next, f).rules
    ensures Doomed(name, r, obsolete)
    ensures forall i :: 0 <= i < |wanted| ==> Has(name, ReconcileRules(name, snap, wanted, obsolete, next, f).rules, wanted[i])
  {
    var l :| 0 <= l < |snap| && snap[l] == r;
    var added := AddPhase(name, snap, wanted, next, f);
    assert added.rules[l] == r;
    var ids := RemovedIds(name, snap, obsolete, added.rules, added.next, f);
    forall i | 0 <= i < |wanted| ensures Has(name, ReconcileRules(name, snap, wanted, obsolete, next, f).rules, wanted[i]) {
      AllWantedMet(name, snap, wanted, obsolete, next, f, i);
    }
  }

  /** A pass that ends leaves no rule that was read and that a removal request matches. */
  lemma NoneDoomedLeft(name: string, snap: seq<CloudRule>, wanted: seq<Rule>, obsolete: seq<Rule>, next: Id, f: Fault, r: CloudRule)
    requires ReconcileRules(name, snap, wanted, obsolete, next, f).ok
    requires r in snap && Doomed(name, r, obsolete)
    ensures r !in ReconcileRules(name, snap, wanted, obsolete, next, f).rules
  {
    var added := AddPhase(name, snap, wanted, next, f);
    var ids := RemovedIds(name, snap, obsolete, added.rules, added.next, f);
    var l :| 0 <= l < |snap| && snap[l] == r;
  }

  /** The same for the rules an RKE2 cluster wants and the CIDRs an edit drops. */
  lemma EveryWantedRuleMet(name: string, snap: seq<CloudRule>, group: Id, previous: seq<string>, cidrs: seq<string>, cni: string, next: Id, f: Fault)
    requires GoodRules(snap, next)
    requires ReconcileRules(name, snap, Wanted(group, cidrs, cni), Obsolete(previous, cidrs), next, f).ok
    ensures forall i :: 0 <= i < |Wanted(group, cidrs, cni)| ==>
              Has(name, ReconcileRules(name, snap, Wanted(group, cidrs, cni), Obsolete(previous, cidrs), next, f).rules, Wanted(group, cidrs, cni)[i])
  {
    var wanted, obsolete := Wanted(group, cidrs, cni), Obsolete(previous, cidrs);
    WantedApartFromObsolete(name, group, previous, cidrs, cni);
    forall i | 0 <= i < |wanted| ensures Has(name, ReconcileRules(name, snap, wanted, obsolete, next, f).rules, wanted[i]) {
      AllWantedMet(name, snap, wanted, obsolete, next, f, i);
    }
  }

  // ---------------------------------------------------------------- reachability of SSH

  predicate IsSSH(r: CloudRule) {
    Lower(r.protocol) == "tcp" && r.fromPort == 22 && r.toPort == 22
  }

  /** The CIDRs a list of rules lets reach port 22. */
  function Open(rules: seq<CloudRule>): set<string> {
    set r | r in rules && IsSSH(r) :: r.cidr
  }

  function ToSet(cidrs: seq<string>): set<string> {
    set c | c in cidrs
  }

  lemma SSHMatches(name: string, r: CloudRule, c: string)
    ensures Matches(name, r, SSHRule(c)) <==> IsSSH(r) && r.cidr == c
  {
    assert Lower("tcp") == "tcp";
  }

  /**
   A pass cut at any call opens only desired CIDRs and closes only dropped ones; a pass that
   ends leaves open exactly the old CIDRs and the desired ones, minus the dropped ones.
   */
  lemma OpenAfter(name: string, snap: seq<CloudRule>, group: Id, previous: seq<string>, cidrs: seq<string>, cni: string, next: Id, f: Fault)
    requires GoodRules(snap, next)
    ensures var p := ReconcileRules(name, snap, Wanted(group, cidrs, cni), Obsolete(previous, cidrs), next, f);
            var dropped := ToSet(previous) - ToSet(cidrs);
            && Open(snap) - dropped <= Open(p.rules) <= Open(snap) + ToSet(cidrs)
            && (p.ok ==> Open(p.rules) == (Open(snap) + ToSet(cidrs)) - dropped)
  {
    var p := ReconcileRules(name, snap, Wanted(group, cidrs, cni), Obsolete(previous, cidrs), next, f);
    var dropped := ToSet(previous) - ToSet(cidrs);
    forall c | c in Open(snap) - dropped ensures c in Open(p.rules) {
      StaysOpen(name, snap, group, previous, cidrs, cni, next, f, c);
    }
    forall c | c in Open(p.rules) ensures c in Open(snap) + ToSet(cidrs) {
      OpensOnlyDesired(name, snap, group, previous, cidrs, cni, next, f, c);
    }
    if p.ok {
      forall c | c in ToSet(cidrs) ensures c in Open(p.rules) {
        DesiredIsOpen(name, snap, group, previous, cidrs, cni, next, f, c);
      }
      forall c | c in dropped ensures c !in Open(p.rules) {
        DroppedIsClosed(name, snap, group, previous, cidrs, cni, next, f, c);
      }
    }
  }

  lemma StaysOpen(name: string, snap: seq<CloudRule>, group: Id, previous: seq<string>, cidrs: seq<string>, cni: string, next: Id, f: Fault, c: string)
    requires GoodRules(snap, next)
    requires c in Open(snap) && (c in previous ==> c in cidrs)
    ensures c in Open(ReconcileRules(name, snap, Wanted(group, cidrs, cni), Obsolete(previous, cidrs), next, f).rules)
  {
    var wanted, obsolete := Wanted(group, cidrs, cni), Obsolete(previous, cidrs);
    var r :| r in snap && IsSSH(r) && r.cidr == c;
    WantedApartFromObsolete(name, group, previous, cidrs, cni);
    if r !in ReconcileRules(name, snap, wanted, obsolete, next, f).rules {
      AccessNeverDips(name, snap, wanted, obsolete, next, f, r);
      DoomedIsDropped(name, r, previous, cidrs);
    }
  }

  lemma DoomedIsDropped(name: string, r: CloudRule, previous: seq<string>, cidrs: seq<string>)
    ensures Doomed(name, r, Obsolete(previous, cidrs)) <==> IsSSH(r) && r.cidr in previous && r.cidr !in cidrs
  {
    var obsolete := Obsolete(previous, cidrs);
    SSHMatches(name, r, r.cidr);
    if Doomed(name, r, obsolete) {
      var a :| 0 <= a < |obsolete| && Matches(name, r, obsolete[a]);
      assert obsolete[a] in obsolete;
      var c :| c in previous && c !in cidrs && obsolete[a] == SSHRule(c);
      SSHMatches(name, r, c);
    }
    if IsSSH(r) && r.cidr in previous && r.cidr !in cidrs {
      assert SSHRule(r.cidr) in obsolete;
    }
  }

  /** A new rule lets SSH in only from a desired CIDR. */
  lemma NewSSHIsDesired(name: string, id: Id, group: Id, cidrs: seq<string>, cni: string, i: nat)
    requires i < |Wanted(group, cidrs, cni)| && IsSSH(Made(name, id, Wanted(group, cidrs, cni)[i]))
    ensures Wanted(group, cidrs, cni)[i].cidr in cidrs
  {
    SelfRulesApart(group, cidrs, cni);
    if i < |cidrs| {
      assert Wanted(group, cidrs, cni)[i] == SSHRule(cidrs[i]);
    }
  }

  lemma OpensOnlyDesired(name: string, snap: seq<CloudRule>, group: Id, previous: seq<string>, cidrs: seq<string>, cni: string, next: Id, f: Fault, c: string)
    requires c in Open(ReconcileRules(name, snap, Wanted(group, cidrs, cni), Obsolete(previous, cidrs), next, f).rules)
    ensures c in Open(snap) || c in cidrs
  {
    var wanted := Wanted(group, cidrs, cni);
    var p := ReconcileRules(name, snap, wanted, Obsolete(previous, cidrs), next, f);
    var r :| r in p.rules && IsSSH(r) && r.cidr == c;
    RulePassSources(name, snap, wanted, Obsolete(previous, cidrs), next, f, r);
    if r !in snap {
      var i :| 0 <= i < |wanted| && r == Made(name, r.id, wanted[i]);
      NewSSHIsDesired(name, r.id, group, cidrs, cni, i);
    }
  }

  lemma DesiredIsOpen(name: string, snap: seq<CloudRule>, group: Id, previous: seq<string>, cidrs: seq<string>, cni: string, next: Id, f: Fault, c: string)
    requires GoodRules(snap, next) && c in cidrs
    requires AddPhase(name, snap, Wanted(group, cidrs, cni), next, f).ok
    ensures c in Open(ReconcileRules(name, snap, Wanted(group, cidrs, cni), Obsolete(previous, cidrs), next, f).rules)
  {
    var wanted, obsolete := Wanted(group, cidrs, cni), Obsolete(previous, cidrs);
    var i :| 0 <= i < |cidrs| && cidrs[i] == c;
    assert wanted[i] == SSHRule(c);
    WantedApartFromObsolete(name, group, previous, cidrs, cni);
    AllWantedMet(name, snap, wanted, obsolete, next, f, i);
    var rules := ReconcileRules(name, snap, wanted, obsolete, next, f).rules;
    var k :| 0 <= k < |rules| && Matches(name, rules[k], SSHRule(c));
    SSHMatches(name, rules[k], c);
    assert rules[k] in rules;
  }

  lemma DroppedIsClosed(name: string, snap: seq<CloudRule>, group: Id, previous: seq<string>, cidrs: seq<string>, cni: string, next: Id, f: Fault, c: string)
    requires c in previous && c !in cidrs
    requires ReconcileRules(name, snap, Wanted(group, cidrs, cni), Obsolete(previous, cidrs), next, f).ok
    ensures c !in Open(ReconcileRules(name, snap, Wanted(group, cidrs, cni), Obsolete(previous, cidrs), next, f).rules)
  {
    var wanted, obsolete := Wanted(group, cidrs, cni), Obsolete(previous, cidrs);
    var p := ReconcileRules(name, snap, wanted, obsolete, next, f);
    if r :| r in p.rules && IsSSH(r) && r.cidr == c {
      RulePassSources(name, snap, wanted, obsolete, next, f, r);
      if r in snap {
        DoomedIsDropped(name, r, previous, cidrs);
        NoneDoomedLeft(name, snap, wanted, obsolete, next, f, r);
      } else {
        var i :| 0 <= i < |wanted| && r == Made(name, r.id, wanted[i]);
        NewSSHIsDesired(name, r.id, group, cidrs, cni, i);
      }
    }
  }

  // ---------------------------------------------------------------- the fixed point

  lemma {:induction false} NothingToCreate(name: string, snap: seq<CloudRule>, wanted: seq<Rule>, n: nat, next: Id)
    requires n <= |wanted| && forall i :: 0 <= i < |wanted| ==> Has(name, snap, wanted[i])
    ensures Created(name, snap, wanted, n, next) == []
  {
    if n > 0 {
      NothingToCreate(name, snap, wanted, n - 1, next);
    }
  }

  /** When every request is met and the applied list is the desired one, a pass makes no change. */
  lemma RulesSettled(name: string, snap: seq<CloudRule>, wanted: seq<Rule>, cidrs: seq<string>, next: Id, f: Fault)
    requires forall i :: 0 <= i < |wanted| ==> Has(name, snap, wanted[i])
    ensures ReconcileRules(name, snap, wanted, Obsolete(cidrs, cidrs), next, f) == RulePass(snap, next, true)
  {
    NothingToCreate(name, snap, wanted, |wanted|, next);
    var obsolete := Obsolete(cidrs, cidrs);
    assert forall i :: 0 <= i < |obsolete| ==> obsolete[i] in obsolete;
  }

  // ---------------------------------------------------------------- traffic between nodes

  /** Some rule lets members of the group reach the port. */
  predicate Admits(name: string, rules: seq<CloudRule>, protocol: string, port: int) {
    exists r :: r in rules && Lets(name, r, protocol, port)
  }

  predicate Lets(name: string, r: CloudRule, protocol: string, port: int) {
    Lower(r.protocol) == protocol && r.fromPort <= port <= r.toPort && r.cidr == "" && r.group == name
  }

  /** What RKE2 and its network plugin need between nodes. */
  predicate NodeTraffic(cni: string, protocol: string, port: int) {
    || (protocol == "tcp" && (2379 <= port <= 2381 || port == 6443 || port == 9345 || port == 10250 || 30000 <= port <= 32767))
    || (cni in ["", "canal"] && ((protocol == "udp" && port == 8472) || (protocol == "tcp" && port == 9099)))
    || (cni == "flannel" && protocol == "udp" && port == 4789)
    || (cni == "calico" && protocol == "tcp" && (port == 179 || port == 5473 || 9098 <= port <= 9099))
    || (cni == "calico" && protocol == "udp" && port == 4789)
  }

  /** A request that lets members of the group reach the port. */
  predicate Asks(r: Rule, group: Id, protocol: string, port: int) {
    r.protocol == protocol && r.fromPort <= port <= r.toPort && r.cidr == "" && r.remote == group
  }

  /** The wanted rules ask for exactly that traffic from the group itself. */
  lemma TrafficIsAskedFor(group: Id, cidrs: seq<string>, cni: string, protocol: string, port: int)
    requires group != 0
    ensures NodeTraffic(cni, protocol, port) <==>
            exists i :: 0 <= i < |Wanted(group, cidrs, cni)| && Asks(Wanted(group, cidrs, cni)[i], group, protocol, port)
  {
    var w, n, c := Wanted(group, cidrs, cni), NodeRules(group), CNIRules(group, cni);
    assert forall i :: |cidrs| <= i < |w| ==> w[i] == (n + c)[i - |cidrs|];
    assert forall i :: 0 <= i < |cidrs| ==> !Asks(w[i], group, protocol, port);
    if NodeTraffic(cni, protocol, port) {
      var i := AskingRule(group, cni, protocol, port);
      assert w[|cidrs| + i] == (n + c)[i];
    }
    if i :| 0 <= i < |w| && Asks(w[i], group, protocol, port) {
      AskedIsTraffic(group, cni, protocol, port, i - |cidrs|);
    }
  }

  lemma AskingRule(group: Id, cni: string, protocol: string, port: int) returns (i: nat)
    requires NodeTraffic(cni, protocol, port)
    ensures i < |NodeRules(group) + CNIRules(group, cni)| && Asks((NodeRules(group) + CNIRules(group, cni))[i], group, protocol, port)
  {
    var n, c := NodeRules(group), CNIRules(group, cni);
    if protocol == "tcp" && 2379 <= port <= 2381 { i := 0; }
    else if protocol == "tcp" && port == 6443 { i := 1; }
    else if protocol == "tcp" && port == 9345 { i := 2; }
    else if protocol == "tcp" && port == 10250 { i := 3; }
    else if protocol == "tcp" && 30000 <= port <= 32767 { i := 4; }
    else {
      var j := AskingCNIRule(group, cni, protocol, port);
      i := |n| + j;
      assert (n + c)[i] == c[j];
    }
  }

  lemma AskingCNIRule(group: Id, cni: string, protocol: string, port: int) returns (i: nat)
    requires NodeTraffic(cni, protocol, port)
    requires !(protocol == "tcp" && (2379 <= port <= 2381 || port == 6443 || port == 9345 || port == 10250 || 30000 <= port <= 32767))
    ensures i < |CNIRules(group, cni)| && Asks(CNIRules(group, cni)[i], group, protocol, port)
  {
    if cni == "calico" {
      i := if protocol == "udp" then 1 else if port == 179 then 0 else if port == 5473 then 2 else 3;
    } else if cni == "flannel" {
      i := 0;
    } else {
      i := if protocol == "udp" then 0 else 1;
    }
  }

  lemma AskedIsTraffic(group: Id, cni: string, protocol: string, port: int, i: nat)
    requires i < |NodeRules(group) + CNIRules(group, cni)| && Asks((NodeRules(group) + CNIRules(group, cni))[i], group, protocol, port)
    ensures NodeTraffic(cni, protocol, port)
  {
    var n, c := NodeRules(group), CNIRules(group, cni);
    if i < |n| {
      assert (n + c)[i] == n[i];
    } else {
      assert (n + c)[i] == c[i - |n|];
    }
  }

  lemma PlainProtocol(cni: string, protocol: string, port: int)
    requires NodeTraffic(cni, protocol, port)
    ensures Lower(protocol) == protocol
  {
    assert Lower("tcp") == "tcp" && Lower("udp") == "udp";
  }

  /** A rule that serves the request lets the traffic in. */
  lemma ServedLets(name: string, r: CloudRule, wanted: Rule, group: Id, protocol: string, port: int)
    requires Matches(name, r, wanted) && Asks(wanted, group, protocol, port) && group != 0 && Lower(protocol) == protocol
    ensures Lets(name, r, protocol, port)
  {
  }

  /** With every wanted rule in place all traffic between nodes is admitted. */
  lemma AllTrafficAdmitted(name: string, rules: seq<CloudRule>, group: Id, cidrs: seq<string>, cni: string, protocol: string, port: int)
    requires group != 0 && NodeTraffic(cni, protocol, port)
    requires forall i :: 0 <= i < |Wanted(group, cidrs, cni)| ==> Has(name, rules, Wanted(group, cidrs, cni)[i])
    ensures Admits(name, rules, protocol, port)
  {
    hide Matches, Lets, NodeTraffic, Wanted, Asks;
    TrafficIsAskedFor(group, cidrs, cni, protocol, port);
    PlainProtocol(cni, protocol, port);
    var wanted := Wanted(group, cidrs, cni);
    var i :| 0 <= i < |wanted| && Asks(wanted[i], group, protocol, port);
    assert Has(name, rules, wanted[i]);
    var k :| 0 <= k < |rules| && Matches(name, rules[k], wanted[i]);
    ServedLets(name, rules[k], wanted[i], group, protocol, port);
    assert rules[k] in rules;
  }

  /**
   After a rule pass that ends, whatever the group held before, nodes reach each other on every port
   that RKE2 and the network plugin need.
   */
  lemma NodesReachEachOther(name: string, snap: seq<CloudRule>, group: Id, previous: seq<string>, cidrs: seq<string>, cni: string,
                            next: Id, f: Fault, protocol: string, port: int)
    requires GoodRules(snap, next) && group != 0 && NodeTraffic(cni, protocol, port)
    requires ReconcileRules(name, snap, Wanted(group, cidrs, cni), Obsolete(previous, cidrs), next, f).ok
    ensures Admits(name, ReconcileRules(name, snap, Wanted(group, cidrs, cni), Obsolete(previous, cidrs), next, f).rules, protocol, port)
  {
    hide ReconcileRules, Wanted, Obsolete, Has, NodeTraffic, Admits, GoodRules;
    EveryWantedRuleMet(name, snap, group, previous, cidrs, cni, next, f);
    AllTrafficAdmitted(name, ReconcileRules(name, snap, Wanted(group, cidrs, cni), Obsolete(previous, cidrs), next, f).rules,
                       group, cidrs, cni, protocol, port);
  }

  /** A rule made for a request lets in exactly what the request asks for. */
  lemma MadeLets(name: string, id: Id, r: Rule, group: Id, protocol: string, port: int)
    requires name != "" && group != 0 && (r.remote == 0 || r.remote == group) && Lower(r.protocol) == r.protocol
    ensures Lets(name, Made(name, id, r), protocol, port) <==> Asks(r, group, protocol, port)
  {
  }

  lemma WantedIsPlain(group: Id, cidrs: seq<string>, cni: string, i: nat)
    requires i < |Wanted(group, cidrs, cni)|
    ensures var r := Wanted(group, cidrs, cni)[i]; Lower(r.protocol) == r.protocol && (r.remote == 0 || r.remote == group)
  {
    assert Lower("tcp") == "tcp" && Lower("udp") == "udp";
    var w, n, c := Wanted(group, cidrs, cni), NodeRules(group), CNIRules(group, cni);
    if i >= |cidrs| {
      assert w[i] == (n + c)[i - |cidrs|];
    }
  }

  /** In a new group nodes reach each other on those ports and on no other. */
  lemma NewGroupAdmitsExactly(name: string, group: Id, previous: seq<string>, cidrs: seq<string>, cni: string,
                              next: Id, f: Fault, protocol: string, port: int)
    requires group != 0 && name != ""
    requires ReconcileRules(name, [], Wanted(group, cidrs, cni), Obsolete(previous, cidrs), next, f).ok
    ensures Admits(name, ReconcileRules(name, [], Wanted(group, cidrs, cni), Obsolete(previous, cidrs), next, f).rules, protocol, port)
            <==> NodeTraffic(cni, protocol, port)
  {
    hide ReconcileRules, Wanted, Obsolete, Has, NodeTraffic, Lets, Asks;
    var wanted := Wanted(group, cidrs, cni);
    var rules := ReconcileRules(name, [], wanted, Obsolete(previous, cidrs), next, f).rules;
    if NodeTraffic(cni, protocol, port) {
      NodesReachEachOther(name, [], group, previous, cidrs, cni, next, f, protocol, port);
    }
    if r :| r in rules && Lets(name, r, protocol, port) {
      RulePassSources(name, [], wanted, Obsolete(previous, cidrs), next, f, r);
      var i :| 0 <= i < |wanted| && r == Made(name, r.id, wanted[i]);
      WantedIsPlain(group, cidrs, cni, i);
      MadeLets(name, r.id, wanted[i], group, protocol, port);
      TrafficIsAskedFor(group, cidrs, cni, protocol, port);
    }
  }
}
