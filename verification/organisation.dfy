/**
  The organisation as an explicit state: every employee ever created, keyed by
  identity, and the shared counter that hands out identities.
 */
module Organisation {
  import opened Options
  import opened Staff

  datatype Org = Org(staff: map<int, Employee>, employeeCount: nat)

  /** The result of an operation that reports success or failure. */
  datatype Outcome = Outcome(org: Org, ok: bool)

  /** The result of creating an employee. */
  datatype Hired = Hired(org: Org, id: int)

  /** The organisation before any employee is created: the counter starts at 0. */
  const Empty: Org := Org(map[], 0)

  /** The organisation before any employee is created satisfies the invariant. */
  lemma EmptyValid()
    ensures Valid(Empty) && Empty.employeeCount == 0
  {
  }

  predicate HasKind(staff: map<int, Employee>, k: int, kind: Kind) {
    k in staff && KindOf(staff[k].role) == kind
  }

  predicate IsEngineer(o: Org, k: int) { HasKind(o.staff, k, EngineerKind) }
  predicate IsTechnicalLead(o: Org, k: int) { HasKind(o.staff, k, TechnicalLeadKind) }
  predicate IsAccountant(o: Org, k: int) { HasKind(o.staff, k, AccountantKind) }
  predicate IsBusinessLead(o: Org, k: int) { HasKind(o.staff, k, BusinessLeadKind) }
  predicate IsTechnical(o: Org, k: int) { IsEngineer(o, k) || IsTechnicalLead(o, k) }
  predicate IsBusiness(o: Org, k: int) { IsAccountant(o, k) || IsBusinessLead(o, k) }
  predicate IsLead(o: Org, k: int) { IsTechnicalLead(o, k) || IsBusinessLead(o, k) }

  /** Every ID of `ids` names an employee of the given kind. */
  predicate AllOfKind(staff: map<int, Employee>, ids: seq<int>, kind: Kind) {
    forall i :: 0 <= i < |ids| ==> HasKind(staff, ids[i], kind)
  }

  /** The invariants each employee keeps: its salary is the one its track fixes, its
      references name employees of the right kind, a lead never holds more reports than
      its headcount, and no bonus budget is negative. */
  predicate WellFormed(staff: map<int, Employee>, e: Employee) {
    && e.baseSalary == TrackSalary(KindOf(e.role))
    && (e.manager.Some? ==> e.manager.value in staff)
    && match e.role
       case SoftwareEngineer(_, _) => true
       case TechnicalLead(_, headCount, reports) =>
         headCount == TechnicalHeadCount && |reports| <= headCount
         && AllOfKind(staff, reports, EngineerKind)
       case Accountant(budget, team) =>
         budget >= 0.0 && (team.Some? ==> HasKind(staff, team.value, TechnicalLeadKind))
       case BusinessLead(budget, headCount, reports) =>
         budget >= 0.0 && headCount == BusinessHeadCount && |reports| <= headCount
         && AllOfKind(staff, reports, AccountantKind)
  }

  /** Identities are the keys, lie between 1 and the counter, and every employee is well formed. */
  predicate Valid(o: Org) {
    && (forall k :: k in o.staff ==> 1 <= k <= o.employeeCount && o.staff[k].id == k)
    && (forall k :: k in o.staff ==> WellFormed(o.staff, o.staff[k]))
  }

  /** `s2` knows every employee `s1` knows, with the same kind: nobody changes role. */
  ghost predicate KeepsKinds(s1: map<int, Employee>, s2: map<int, Employee>) {
    forall x, kind :: HasKind(s1, x, kind) ==> HasKind(s2, x, kind)
  }

  /** Only `changed` may differ between `o` and `o'`; nobody is created. */
  predicate OthersUnchanged(o: Org, o': Org, changed: set<int>) {
    && o'.employeeCount == o.employeeCount
    && o'.staff.Keys == o.staff.Keys
    && forall k :: k in o.staff && k !in changed ==> o'.staff[k] == o.staff[k]
  }

  lemma WellFormedExtends(s1: map<int, Employee>, s2: map<int, Employee>, e: Employee)
    requires KeepsKinds(s1, s2) && WellFormed(s1, e)
    ensures WellFormed(s2, e)
  {
    if e.manager.Some? {
      var m := e.manager.value;
      assert HasKind(s1, m, KindOf(s1[m].role));
    }
  }

  /** Replacing one employee by a well-formed record of the same kind keeps the organisation valid. */
  lemma UpdateKeepsValid(o: Org, k: int, e: Employee)
    requires Valid(o) && k in o.staff
    requires e.id == k && KindOf(e.role) == KindOf(o.staff[k].role)
    requires WellFormed(o.staff, e)
    ensures Valid(o.(staff := o.staff[k := e]))
  {
    var s := o.staff[k := e];
    assert KeepsKinds(o.staff, s);
    forall j | j in s
      ensures WellFormed(s, s[j])
    {
      if j == k {
        WellFormedExtends(o.staff, s, e);
      } else {
        WellFormedExtends(o.staff, s, o.staff[j]);
      }
    }
  }

  /** A lead of a valid organisation holds no more reports than its headcount, all of the
      kind it manages. */
  lemma LeadWithinHeadCount(o: Org, k: int)
    requires Valid(o) && IsLead(o, k)
    ensures IsTechnicalLead(o, k) ==>
      |Reports(o, k)| <= TechnicalHeadCount && AllOfKind(o.staff, Reports(o, k), EngineerKind)
    ensures IsBusinessLead(o, k) ==>
      |Reports(o, k)| <= BusinessHeadCount && AllOfKind(o.staff, Reports(o, k), AccountantKind)
  {
    assert WellFormed(o.staff, o.staff[k]);
  }

  /** Every employee earns the base salary of its track. */
  lemma SalaryByTrack(o: Org, k: int)
    requires Valid(o) && k in o.staff
    ensures o.staff[k].baseSalary == TrackSalary(KindOf(o.staff[k].role))
  {
    assert WellFormed(o.staff, o.staff[k]);
  }

  function ManagerOf(o: Org, k: int): Option<int>
    requires k in o.staff
  {
    o.staff[k].manager
  }

  function Reports(o: Org, k: int): seq<int>
    requires IsLead(o, k)
  {
    o.staff[k].role.reports
  }

  function BonusBudget(o: Org, k: int): real
    requires IsBusiness(o, k)
  {
    o.staff[k].role.bonusBudget
  }

  function TeamSupported(o: Org, k: int): Option<int>
    requires IsAccountant(o, k)
  {
    o.staff[k].role.teamSupported
  }

  function CodeAccess(o: Org, k: int): bool
    requires IsEngineer(o, k)
  {
    o.staff[k].role.codeAccess
  }

  function CheckIns(o: Org, k: int): nat
    requires IsTechnical(o, k)
  {
    o.staff[k].role.checkIns
  }

  /** Creating an employee: the shared counter is incremented and its new value is the
      identity, whatever the kind of employee. */
  function Hire(o: Org, name: string, k: Kind): (r: Hired)
    requires Valid(o)
    ensures Valid(r.org)
    ensures r.id == o.employeeCount + 1 && r.org.employeeCount == r.id
    ensures r.id !in o.staff && r.org.staff.Keys == o.staff.Keys + {r.id}
    ensures forall j :: j in o.staff ==> r.org.staff[j] == o.staff[j]
    ensures r.org.staff[r.id] == NewEmployee(r.id, name, k)
  {
    var id := o.employeeCount + 1;
    var e := NewEmployee(id, name, k);
    var o' := Org(o.staff[id := e], id);
    assert KeepsKinds(o.staff, o'.staff);
    assert forall j :: j in o.staff ==> WellFormed(o'.staff, o'.staff[j]) by {
      forall j | j in o.staff
        ensures WellFormed(o'.staff, o'.staff[j])
      {
        WellFormedExtends(o.staff, o'.staff, o.staff[j]);
      }
    }
    Hired(o', id)
  }

  /** Creating several employees in a row, as `new` expressions evaluated in order. */
  function HireAll(o: Org, hires: seq<(string, Kind)>): (r: (Org, seq<int>))
    requires Valid(o)
    ensures Valid(r.0)
    ensures |r.1| == |hires| && r.0.employeeCount == o.employeeCount + |hires|
    ensures forall i :: 0 <= i < |r.1| ==> r.1[i] == o.employeeCount + 1 + i
    ensures forall i, j :: 0 <= i < j < |r.1| ==> r.1[i] < r.1[j]
    ensures forall i :: 0 <= i < |r.1| ==> r.1[i] !in o.staff && r.1[i] in r.0.staff
    ensures forall j :: j in o.staff ==> j in r.0.staff && r.0.staff[j] == o.staff[j]
    ensures forall i :: 0 <= i < |r.1| ==> r.0.staff[r.1[i]] == NewEmployee(r.1[i], hires[i].0, hires[i].1)
    decreases |hires|
  {
    if hires == [] then (o, [])
    else
      var h := Hire(o, hires[0].0, hires[0].1);
      var rest := HireAll(h.org, hires[1..]);
      var ids := [h.id] + rest.1;
      assert forall i :: 1 <= i < |ids| ==> ids[i] == rest.1[i - 1] && hires[i] == hires[1..][i - 1];
      (rest.0, ids)
  }

  /** Creating several employees adds exactly the identities the counter passes through. */
  lemma {:induction false} HireAllAddsOnlyNew(o: Org, hires: seq<(string, Kind)>)
    requires Valid(o)
    ensures forall j :: j in HireAll(o, hires).0.staff
                    <==> j in o.staff || o.employeeCount < j <= o.employeeCount + |hires|
    decreases |hires|
  {
    if hires != [] {
      var h := Hire(o, hires[0].0, hires[0].1);
      HireAllAddsOnlyNew(h.org, hires[1..]);
    }
  }

  /** Identity equality coincides with being the same entry of the organisation. */
  lemma EqualsIffSameKey(o: Org, x: int, y: int)
    requires Valid(o) && x in o.staff && y in o.staff
    ensures Equals(o.staff[x], o.staff[y]) <==> x == y
  {
  }

  /** The unconditional manager setter; any employee, or nobody, may be the manager. */
  function SetManager(o: Org, k: int, m: Option<int>): (r: Org)
    requires Valid(o) && k in o.staff
    requires m.Some? ==> m.value in o.staff
    ensures Valid(r) && OthersUnchanged(o, r, {k})
    ensures ManagerOf(r, k) == m
    ensures r.staff[k].(manager := o.staff[k].manager) == o.staff[k]
  {
    var e := o.staff[k].(manager := m);
    UpdateKeepsValid(o, k, e);
    o.(staff := o.staff[k := e])
  }

  /** Granting or withdrawing a software engineer's code access. */
  function SetCodeAccess(o: Org, k: int, access: bool): (r: Org)
    requires Valid(o) && IsEngineer(o, k)
    ensures Valid(r) && IsEngineer(r, k)
    ensures CodeAccess(r, k) == access
    ensures CheckIns(r, k) == CheckIns(o, k) && ManagerOf(r, k) == ManagerOf(o, k)
    ensures OthersUnchanged(o, r, {k})
    ensures r.staff[k] == o.staff[k].(role := o.staff[k].role.(codeAccess := access))
  {
    var e := o.staff[k].(role := o.staff[k].role.(codeAccess := access));
    UpdateKeepsValid(o, k, e);
    o.(staff := o.staff[k := e])
  }

  /** Counting one more successful check-in of a technical employee. */
  function AddCheckIn(o: Org, k: int): (r: Org)
    requires Valid(o) && IsTechnical(o, k)
    ensures Valid(r) && IsTechnical(r, k)
    ensures CheckIns(r, k) == CheckIns(o, k) + 1
    ensures KindOf(r.staff[k].role) == KindOf(o.staff[k].role) && ManagerOf(r, k) == ManagerOf(o, k)
    ensures OthersUnchanged(o, r, {k})
    ensures r.staff[k] == o.staff[k].(role := o.staff[k].role.(checkIns := CheckIns(o, k) + 1))
  {
    var e := o.staff[k].(role := o.staff[k].role.(checkIns := o.staff[k].role.checkIns + 1));
    UpdateKeepsValid(o, k, e);
    o.(staff := o.staff[k := e])
  }

  /** Overwriting the bonus budget of a business employee with a non-negative amount. */
  function SetBonusBudget(o: Org, k: int, budget: real): (r: Org)
    requires Valid(o) && IsBusiness(o, k) && budget >= 0.0
    ensures Valid(r) && OthersUnchanged(o, r, {k})
    ensures KindOf(r.staff[k].role) == KindOf(o.staff[k].role)
    ensures BonusBudget(r, k) == budget
    ensures ManagerOf(r, k) == ManagerOf(o, k)
    ensures IsLead(o, k) ==> Reports(r, k) == Reports(o, k)
    ensures IsAccountant(o, k) ==> TeamSupported(r, k) == TeamSupported(o, k)
    ensures r.staff[k] == o.staff[k].(role := o.staff[k].role.(bonusBudget := budget))
  {
    var e := o.staff[k].(role := o.staff[k].role.(bonusBudget := budget));
    UpdateKeepsValid(o, k, e);
    o.(staff := o.staff[k := e])
  }
}
