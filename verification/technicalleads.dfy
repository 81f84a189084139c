/** A technical lead: manages software engineers up to its headcount, approves their
    check-ins and forwards bonus requests to its own manager. */
module TechnicalLeads {
  import opened Options
  import opened Staff
  import opened Organisation
  import BusinessLeads

  /** Room for one more report: the default headcount is the limit. */
  predicate HasHeadCount(o: Org, tl: int): (r: bool)
    requires Valid(o) && IsTechnicalLead(o, tl)
    ensures r <==> |Reports(o, tl)| < TechnicalHeadCount
  {
    LeadWithinHeadCount(o, tl);
    |Reports(o, tl)| < o.staff[tl].role.headCount
  }

  /** Adds `eng` at the end of the lead's reports and makes the lead its manager when there
      is headcount; duplicates are not rejected. Without headcount nothing changes. */
  function AddReport(o: Org, tl: int, eng: int): (r: Outcome)
    requires Valid(o) && IsTechnicalLead(o, tl) && IsEngineer(o, eng)
    ensures Valid(r.org) && KeepsKinds(o.staff, r.org.staff)
    ensures r.ok <==> |Reports(o, tl)| < TechnicalHeadCount
    ensures !r.ok ==> r.org == o
    ensures r.ok ==>
      && OthersUnchanged(o, r.org, {tl, eng})
      && IsTechnicalLead(r.org, tl) && IsEngineer(r.org, eng)
      && Reports(r.org, tl) == Reports(o, tl) + [eng]
      && ManagerOf(r.org, eng) == Some(tl)
      && r.org.staff[tl]
         == o.staff[tl].(role := TechnicalLead(CheckIns(o, tl), TechnicalHeadCount, Reports(o, tl) + [eng]))
      && r.org.staff[eng] == o.staff[eng].(manager := Some(tl))
  {
    assert WellFormed(o.staff, o.staff[tl]);
    if HasHeadCount(o, tl) then
      var lead := o.staff[tl];
      var added := lead.(role := TechnicalLead(lead.role.checkIns, lead.role.headCount, lead.role.reports + [eng]));
      UpdateKeepsValid(o, tl, added);
      var o1 := o.(staff := o.staff[tl := added]);
      Outcome(SetManager(o1, eng, Some(tl)), true)
    else
      Outcome(o, false)
  }

  /** A check-in is approved exactly for an engineer this lead manages that has code access;
      nothing changes, check-in counts included. */
  function ApproveCheckIn(o: Org, tl: int, eng: int): (r: bool)
    requires IsTechnicalLead(o, tl) && IsEngineer(o, eng)
    ensures r ==> ManagerOf(o, eng) == Some(tl) && CodeAccess(o, eng)
    ensures !r ==> ManagerOf(o, eng) != Some(tl) || !CodeAccess(o, eng)
  {
    o.staff[eng].manager == Some(tl) && o.staff[eng].role.codeAccess
  }

  /** The lead's manager is a business lead, the only kind of manager that approves bonuses. */
  predicate ReportsToBusinessLead(o: Org, tl: int)
    requires tl in o.staff
  {
    ManagerOf(o, tl).Some? && IsBusinessLead(o, ManagerOf(o, tl).value)
  }

  /** A bonus request for `e`: forwarded to the lead's manager when that manager is a business
      lead, refused without any change otherwise. */
  function RequestBonus(o: Org, tl: int, e: int, bonus: real): (r: Outcome)
    requires Valid(o) && IsTechnicalLead(o, tl) && e in o.staff
    ensures Valid(r.org) && BusinessLeads.OnlyAccountantsChanged(o, r.org)
    ensures !ReportsToBusinessLead(o, tl) ==> r == Outcome(o, false)
    ensures ReportsToBusinessLead(o, tl) ==> r == BusinessLeads.ApproveBonus(o, ManagerOf(o, tl).value, e, bonus)
  {
    if ReportsToBusinessLead(o, tl) then BusinessLeads.ApproveBonus(o, ManagerOf(o, tl).value, e, bonus)
    else Outcome(o, false)
  }
}
