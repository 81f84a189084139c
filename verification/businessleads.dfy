/** A business lead: manages accountants up to its headcount, holds a bonus budget and
    routes bonus approvals to the accountant supporting the employee's team. */
module BusinessLeads {
  import opened Options
  import opened Staff
  import opened Organisation
  import opened Accountants

  /** Room for one more report: the default headcount is the limit. */
  predicate HasHeadCount(o: Org, bl: int): (r: bool)
    requires Valid(o) && IsBusinessLead(o, bl)
    ensures r <==> |Reports(o, bl)| < BusinessHeadCount
  {
    LeadWithinHeadCount(o, bl);
    |Reports(o, bl)| < o.staff[bl].role.headCount
  }

  /** The list step of `addReport`: the accountant is appended to the lead's reports. */
  function AppendReport(o: Org, bl: int, acc: int): (r: Org)
    requires Valid(o) && IsBusinessLead(o, bl) && IsAccountant(o, acc) && |Reports(o, bl)| < BusinessHeadCount
    ensures Valid(r) && OthersUnchanged(o, r, {bl}) && IsBusinessLead(r, bl)
    ensures r.staff[bl]
      == o.staff[bl].(role := BusinessLead(BonusBudget(o, bl), BusinessHeadCount, Reports(o, bl) + [acc]))
  {
    LeadWithinHeadCount(o, bl);
    var lead := o.staff[bl];
    var added := lead.(role := BusinessLead(lead.role.bonusBudget, lead.role.headCount, lead.role.reports + [acc]));
    UpdateKeepsValid(o, bl, added);
    o.(staff := o.staff[bl := added])
  }

  /** Adds `acc` to the lead's reports when there is headcount: the accountant is managed by
      the lead, supports `tl`'s team with a recomputed budget, and the lead's budget grows by
      the margin on the accountant's salary. Without headcount nothing changes. */
  function AddReport(o: Org, bl: int, acc: int, tl: int): (r: Outcome)
    requires Valid(o) && IsBusinessLead(o, bl) && IsAccountant(o, acc) && IsTechnicalLead(o, tl)
    ensures Valid(r.org) && KeepsKinds(o.staff, r.org.staff)
    ensures r.ok <==> |Reports(o, bl)| < BusinessHeadCount
    ensures !r.ok ==> r.org == o
    ensures r.ok ==>
      && OthersUnchanged(o, r.org, {bl, acc})
      && IsBusinessLead(r.org, bl) && IsAccountant(r.org, acc)
      && Reports(r.org, bl) == Reports(o, bl) + [acc]
      && BonusBudget(r.org, bl) == BonusBudget(o, bl) + 55000.0
      && ManagerOf(r.org, bl) == ManagerOf(o, bl)
      && ManagerOf(r.org, acc) == Some(bl)
      && TeamSupported(r.org, acc) == Some(tl)
      && BonusBudget(r.org, acc) == 82500.0 * (|Reports(o, tl)| as real)
    ensures r.ok ==>
      && r.org.staff[bl]
         == o.staff[bl].(role := BusinessLead(BonusBudget(o, bl) + 55000.0, BusinessHeadCount, Reports(o, bl) + [acc]))
      && r.org.staff[acc]
         == o.staff[acc].(manager := Some(bl), role := Accountant(82500.0 * (|Reports(o, tl)| as real), Some(tl)))
  {
    if HasHeadCount(o, bl) then
      var o1 := AppendReport(o, bl, acc);
      var o2 := SetManager(o1, acc, Some(bl));
      var o3 := SupportTeam(o2, acc, tl);
      SalaryByTrack(o3, acc);
      var salary := o3.staff[acc].baseSalary;
      var o4 := SetBonusBudget(o3, bl, BonusBudget(o3, bl) + salary * Margin);
      Outcome(o4, true)
    else
      Outcome(o, false)
  }

  /** The accountant `a` supports the team `team` and can afford `bonus`. */
  predicate Grantable(o: Org, a: int, team: Option<int>, bonus: real) {
    IsAccountant(o, a) && TeamSupported(o, a) == team && bonus <= BonusBudget(o, a)
  }

  /** `accs[i]` is the first accountant of `accs` that can grant the bonus. */
  predicate FirstGrantable(o: Org, accs: seq<int>, team: Option<int>, bonus: real, i: int) {
    && 0 <= i < |accs|
    && Grantable(o, accs[i], team, bonus)
    && forall j :: 0 <= j < i ==> !Grantable(o, accs[j], team, bonus)
  }

  /** Only accountants' records may differ; nobody is created. */
  predicate OnlyAccountantsChanged(o: Org, o': Org) {
    && o'.employeeCount == o.employeeCount
    && o'.staff.Keys == o.staff.Keys
    && forall k :: k in o.staff && !IsAccountant(o, k) ==> o'.staff[k] == o.staff[k]
  }

  /** The approval loop over `accs` in order: each accountant supporting `team` is asked
      to grant the bonus, and the scan stops at the first one that does. */
  function Scan(o: Org, accs: seq<int>, team: Option<int>, bonus: real): (r: Outcome)
    requires Valid(o) && AllOfKind(o.staff, accs, AccountantKind)
    ensures Valid(r.org) && OnlyAccountantsChanged(o, r.org)
    ensures r.ok <==> exists i :: 0 <= i < |accs| && Grantable(o, accs[i], team, bonus)
    ensures r.ok ==> exists i ::
      (FirstGrantable(o, accs, team, bonus, i) && r.org == Grant(o, accs[i], bonus).org)
    ensures !r.ok ==> r.org == o
    decreases |accs|
  {
    if accs == [] then Outcome(o, false)
    else
      assert IsAccountant(o, accs[0]);
      var g := Grant(o, accs[0], bonus);
      if TeamSupported(o, accs[0]) == team && g.ok then
        assert FirstGrantable(o, accs, team, bonus, 0);
        g
      else
        var r := Scan(o, accs[1..], team, bonus);
        ScanSkipsHead(o, accs, team, bonus, r.org);
        r
  }

  /** When the first accountant cannot grant, the scan's answer on the rest is its answer on all. */
  lemma ScanSkipsHead(o: Org, accs: seq<int>, team: Option<int>, bonus: real, org: Org)
    requires Valid(o) && accs != [] && !Grantable(o, accs[0], team, bonus)
    ensures (exists i :: 0 <= i < |accs[1..]| && Grantable(o, accs[1..][i], team, bonus))
        <==> (exists i :: 0 <= i < |accs| && Grantable(o, accs[i], team, bonus))
    ensures (exists i :: FirstGrantable(o, accs[1..], team, bonus, i) && org == Grant(o, accs[1..][i], bonus).org)
        ==> (exists i :: FirstGrantable(o, accs, team, bonus, i) && org == Grant(o, accs[i], bonus).org)
  {
    if i :| 0 <= i < |accs| && Grantable(o, accs[i], team, bonus) {
      assert Grantable(o, accs[1..][i - 1], team, bonus);
    }
    if i :| FirstGrantable(o, accs[1..], team, bonus, i) && org == Grant(o, accs[1..][i], bonus).org {
      assert FirstGrantable(o, accs, team, bonus, i + 1);
    }
  }

  /** Approval of a bonus for `e`: the lead's accountants are scanned in report order for one
      supporting `e`'s manager that grants the bonus. */
  function ApproveBonus(o: Org, bl: int, e: int, bonus: real): (r: Outcome)
    requires Valid(o) && IsBusinessLead(o, bl) && e in o.staff
    ensures Valid(r.org) && OnlyAccountantsChanged(o, r.org)
    ensures r.ok <==> exists i ::
      (0 <= i < |Reports(o, bl)| && Grantable(o, Reports(o, bl)[i], ManagerOf(o, e), bonus))
    ensures r.ok ==> exists i ::
      (FirstGrantable(o, Reports(o, bl), ManagerOf(o, e), bonus, i)
       && r.org == Grant(o, Reports(o, bl)[i], bonus).org)
    ensures !r.ok ==> r.org == o
  {
    assert WellFormed(o.staff, o.staff[bl]);
    Scan(o, Reports(o, bl), ManagerOf(o, e), bonus)
  }

  /** Accountants support technical leads only, so none can grant for a business lead's team. */
  lemma NoAccountantSupportsBusinessLead(o: Org, accs: seq<int>, m: int, bonus: real)
    requires Valid(o) && IsBusinessLead(o, m) && AllOfKind(o.staff, accs, AccountantKind)
    ensures forall i :: 0 <= i < |accs| ==> !Grantable(o, accs[i], Some(m), bonus)
  {
    forall i | 0 <= i < |accs|
      ensures !Grantable(o, accs[i], Some(m), bonus)
    {
      assert WellFormed(o.staff, o.staff[accs[i]]);
    }
  }

  /** The manager-side call made on `e`'s manager: only a business lead can approve a
      bonus; with any other manager, or none, nothing happens. */
  function ForwardToManager(o: Org, e: int, bonus: real): (r: Org)
    requires Valid(o) && e in o.staff
    ensures r == o
  {
    match ManagerOf(o, e)
    case Some(m) =>
      if IsBusinessLead(o, m) then
        NoAccountantSupportsBusinessLead(o, Reports(o, m), m, bonus);
        ApproveBonus(o, m, e, bonus).org
      else o
    case None => o
  }

  /** A bonus request against the lead's own budget: it succeeds exactly when the bonus fits,
      in which case the budget is debited and `e`'s manager is asked to approve; the
      success reported does not depend on that approval. */
  function RequestBonus(o: Org, bl: int, e: int, bonus: real): (r: Outcome)
    requires Valid(o) && IsBusinessLead(o, bl) && e in o.staff
    ensures Valid(r.org) && IsBusinessLead(r.org, bl) && r.org.staff.Keys == o.staff.Keys
    ensures r.ok <==> bonus <= BonusBudget(o, bl)
    ensures !r.ok ==> r.org == o
    ensures r.ok ==> BonusBudget(r.org, bl) == BonusBudget(o, bl) - bonus
    ensures r.ok ==> Reports(r.org, bl) == Reports(o, bl) && ManagerOf(r.org, bl) == ManagerOf(o, bl)
    ensures r.ok ==> OthersUnchanged(o, r.org, {bl})
    ensures r.ok ==>
      r.org.staff[bl] == o.staff[bl].(role := BusinessLead(BonusBudget(o, bl) - bonus, BusinessHeadCount, Reports(o, bl)))
  {
    var budget := BonusBudget(o, bl);
    if bonus <= budget then
      var debited := SetBonusBudget(o, bl, budget - bonus);
      Outcome(ForwardToManager(debited, e, bonus), true)
    else
      Outcome(o, false)
  }
}
