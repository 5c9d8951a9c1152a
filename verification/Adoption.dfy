/**
 Which machine's network an Adopt network takes over.
 */
module Adoption {
  import opened Sorting
  import opened Rules

  datatype Machine = Machine(name: string, created: int, deleting: bool)

  /** The state Secret of a machine: it may fail to be read or decoded. */
  datatype Secret =
    | Unreadable
    | Undecodable
    | State(driver: string, vpc: Id, vpcManaged: bool, subnet: Id, subnetManaged: bool, group: Id)

  datatype Adoptable = Refused | Adopted(vpc: Id, subnet: Id, group: Id)

  /** Only a complete network that the machine driver created can be taken over. */
  function FromState(s: Secret): (r: Adoptable)
    ensures r.Adopted? ==> s.State? && s.vpcManaged && s.subnetManaged && r.vpc != 0 && r.subnet != 0 && r.group != 0
  {
    if !s.State? || s.driver != "opentelekomcloud" then Refused
    else if !s.vpcManaged || !s.subnetManaged || s.group == 0 then Refused
    else if s.vpc == 0 || s.subnet == 0 then Refused
    else Adopted(s.vpc, s.subnet, s.group)
  }

  /** Creation time first, name second. */
  predicate NoLater(a: Machine, b: Machine) {
    a.created < b.created || (a.created == b.created && LexLeq(a.name, b.name))
  }

  lemma NoLaterIsTotalPreorder()
    ensures TotalPreorder(NoLater)
  {
    forall a: Machine, b: Machine ensures NoLater(a, b) || NoLater(b, a) {
      LexTotal(a.name, b.name);
    }
    forall a: Machine, b: Machine, c: Machine | NoLater(a, b) && NoLater(b, c) ensures NoLater(a, c) {
      if a.created == b.created == c.created {
        LexTransitive(a.name, b.name, c.name);
      }
    }
  }

  function Listed(machines: seq<Machine>): set<Machine> {
    set m | m in machines
  }

  predicate Candidate(m: Machine, machines: set<Machine>, secrets: map<string, Secret>) {
    m in machines && !m.deleting && m.name in secrets
  }

  ghost predicate Oldest(m: Machine, machines: set<Machine>, secrets: map<string, Secret>) {
    Candidate(m, machines, secrets) && forall n :: Candidate(n, machines, secrets) ==> NoLater(m, n)
  }

  /** No live machine with a state Secret was created earlier, or at that time with an earlier name. */
  ghost predicate Earliest(m: Machine, machines: set<Machine>, secrets: map<string, Secret>) {
    && m in machines && !m.deleting && m.name in secrets
    && forall n :: n in machines && !n.deleting && n.name in secrets ==>
         m.created < n.created || (m.created == n.created && (m.name == n.name || Before(m.name, n.name)))
  }

  lemma OldestIsEarliest(m: Machine, machines: set<Machine>, secrets: map<string, Secret>)
    ensures Oldest(m, machines, secrets) <==> Earliest(m, machines, secrets)
  {
    hide Before, LexLeq;
    forall n ensures NoLater(m, n) <==> m.created < n.created || (m.created == n.created && (m.name == n.name || Before(m.name, n.name))) {
      LexIsByteOrder(m.name, n.name);
    }
    assert forall n :: Candidate(n, machines, secrets) <==> n in machines && !n.deleting && n.name in secrets;
  }

  /** The choice, as a function of the set of machines: the oldest live one with a state Secret. */
  ghost function Discover(machines: set<Machine>, secrets: map<string, Secret>): Adoptable {
    if m :| Oldest(m, machines, secrets) then FromState(secrets[m.name]) else Refused
  }

  /** Which of several equally old machines is looked at makes no difference. */
  lemma ChoiceIsOldest(m: Machine, machines: set<Machine>, secrets: map<string, Secret>)
    requires Oldest(m, machines, secrets)
    ensures Discover(machines, secrets) == FromState(secrets[m.name])
  {
    forall n | Oldest(n, machines, secrets) ensures n.name == m.name {
      assert Candidate(m, machines, secrets) && Candidate(n, machines, secrets);
      LexAntisymmetric(m.name, n.name);
    }
  }

  /** Adoption takes the oldest candidate's network, whole and driver-made, or nothing. */
  lemma AdoptionMeans(machines: set<Machine>, secrets: map<string, Secret>, d: Adoptable)
    ensures Discover(machines, secrets) == d && d.Adopted? <==>
            d.Adopted? && exists m :: Earliest(m, machines, secrets) && var s := secrets[m.name];
              && s.State? && s.driver == "opentelekomcloud" && s.vpcManaged && s.subnetManaged
              && d == Adopted(s.vpc, s.subnet, s.group) && s.vpc != 0 && s.subnet != 0 && s.group != 0
  {
    hide Before;
    forall m ensures Oldest(m, machines, secrets) <==> Earliest(m, machines, secrets) {
      OldestIsEarliest(m, machines, secrets);
    }
    if m :| Oldest(m, machines, secrets) && FromState(secrets[m.name]) == d {
      ChoiceIsOldest(m, machines, secrets);
    }
  }

  /** Filter, sort, and take the first machine whose Secret exists, in any listing order. */
  method DiscoverAdoptableResources(listed: seq<Machine>, secrets: map<string, Secret>) returns (r: Adoptable)
    ensures r == Discover(Listed(listed), secrets)
  {
    ghost var machines := Listed(listed);
    var live: seq<Machine> := [];
    for i := 0 to |listed|
      invariant forall m :: m in live <==> m in listed[..i] && !m.deleting
    {
      if !listed[i].deleting {
        live := live + [listed[i]];
      }
    }
    var candidates := Sort(NoLater, live);
    SameMembers(candidates, live);
    NoLaterIsTotalPreorder();
    SortSorted(NoLater, live);
    for i := 0 to |candidates|
      invariant forall k :: 0 <= k < i ==> candidates[k].name !in secrets
    {
      var m := candidates[i];
      if m.name in secrets {
        forall n | Candidate(n, machines, secrets) ensures NoLater(m, n) {
          var k :| 0 <= k < |candidates| && candidates[k] == n;
          if k == i {
            LexTotal(m.name, m.name);
          }
        }
        assert Oldest(m, machines, secrets);
        ChoiceIsOldest(m, machines, secrets);
        return FromState(secrets[m.name]);
      }
    }
    assert forall m :: m in candidates ==> m.name !in secrets;
    return Refused;
  }
}
