/** The accountant's side of the bonus workflow: supporting a technical team and granting bonuses. */
module Accountants {
  import opened Options
  import opened Staff
  import opened Organisation

  /** Sum of the base salaries of the employees `ids`, counted with repetition. */
  function TeamSalary(o: Org, ids: seq<int>): real
    requires forall i :: 0 <= i < |ids| ==> ids[i] in o.staff
    decreases |ids|
  {
    if ids == [] then 0.0 else o.staff[ids[0]].baseSalary + TeamSalary(o, ids[1..])
  }

  /** Every software engineer earns the technical base salary, so a team of engineers
      costs that salary times its size. */
  lemma {:induction false} TeamSalaryOfEngineers(o: Org, ids: seq<int>)
    requires Valid(o) && AllOfKind(o.staff, ids, EngineerKind)
    ensures TeamSalary(o, ids) == TechnicalSalary * (|ids| as real)
    decreases |ids|
  {
    if ids != [] {
      assert WellFormed(o.staff, o.staff[ids[0]]);
      TeamSalaryOfEngineers(o, ids[1..]);
    }
  }

  /** The accountant starts supporting `lead`'s team; its budget is recomputed from
      scratch as the margin times the salaries of the lead's current reports. */
  function SupportTeam(o: Org, acc: int, lead: int): (r: Org)
    requires Valid(o) && IsAccountant(o, acc) && IsTechnicalLead(o, lead)
    ensures Valid(r) && OthersUnchanged(o, r, {acc}) && IsAccountant(r, acc)
    ensures TeamSupported(r, acc) == Some(lead)
    ensures BonusBudget(r, acc) == Margin * TechnicalSalary * (|Reports(o, lead)| as real)
    ensures ManagerOf(r, acc) == ManagerOf(o, acc) && r.staff[acc].name == o.staff[acc].name
    ensures r.staff[acc] == o.staff[acc].(role := Accountant(BonusBudget(r, acc), Some(lead)))
  {
    var reports := Reports(o, lead);
    assert WellFormed(o.staff, o.staff[lead]);
    TeamSalaryOfEngineers(o, reports);
    var budget := TeamSalary(o, reports) * Margin;
    var e := o.staff[acc].(role := Accountant(budget, Some(lead)));
    UpdateKeepsValid(o, acc, e);
    o.(staff := o.staff[acc := e])
  }

  /** The per-accountant grant. Its code is not part of this model: it is taken to
      succeed exactly when the bonus fits the accountant's budget, and then to debit it. */
  function Grant(o: Org, acc: int, bonus: real): (r: Outcome)
    requires Valid(o) && IsAccountant(o, acc)
    ensures Valid(r.org) && OthersUnchanged(o, r.org, {acc}) && IsAccountant(r.org, acc)
    ensures r.ok <==> bonus <= BonusBudget(o, acc)
    ensures r.ok ==> BonusBudget(r.org, acc) == BonusBudget(o, acc) - bonus
    ensures r.ok ==>
      r.org.staff[acc] == o.staff[acc].(role := Accountant(BonusBudget(o, acc) - bonus, TeamSupported(o, acc)))
    ensures !r.ok ==> r.org == o
    ensures TeamSupported(r.org, acc) == TeamSupported(o, acc)
    ensures ManagerOf(r.org, acc) == ManagerOf(o, acc)
  {
    var budget := BonusBudget(o, acc);
    if bonus <= budget then Outcome(SetBonusBudget(o, acc, budget - bonus), true)
    else Outcome(o, false)
  }
}
