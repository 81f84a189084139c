/** Properties that relate several operations of the organisation. */
module Properties {
  import opened Options
  import opened Staff
  import opened Organisation
  import opened Accountants
  import BusinessLeads
  import TechnicalLeads

  function Min(a: int, b: int): int { if a < b then a else b }

  /** One step of the fill: taking or refusing the first engineer. */
  lemma TakeStep(before: seq<int>, after: seq<int>, engs: seq<int>)
    requires engs != [] && |before| <= TechnicalHeadCount
    requires || (after == before + [engs[0]] && |before| < TechnicalHeadCount)
             || (after == before && |before| == TechnicalHeadCount)
    ensures after + engs[1..][..Min(TechnicalHeadCount - |after|, |engs| - 1)]
      == before + engs[..Min(TechnicalHeadCount - |before|, |engs|)]
  {
    var n := Min(TechnicalHeadCount - |before|, |engs|);
    if after != before {
      assert engs[..n] == [engs[0]] + engs[1..][..n - 1];
    }
  }

  /** Repeated `addReport` calls of one technical lead, in order. */
  function AddEngineers(o: Org, tl: int, engs: seq<int>): (r: Org)
    requires Valid(o) && IsTechnicalLead(o, tl) && AllOfKind(o.staff, engs, EngineerKind)
    ensures Valid(r) && IsTechnicalLead(r, tl) && KeepsKinds(o.staff, r.staff)
    decreases |engs|
  {
    if engs == [] then o
    else
      var r1 := TechnicalLeads.AddReport(o, tl, engs[0]);
      AddEngineers(r1.org, tl, engs[1..])
  }

  /** A technical lead takes engineers in order until its headcount of 4 is reached and
      refuses every later one: the report list never grows past the limit. */
  lemma {:induction false} AddEngineersStopsAtHeadCount(o: Org, tl: int, engs: seq<int>)
    requires Valid(o) && IsTechnicalLead(o, tl) && AllOfKind(o.staff, engs, EngineerKind)
    ensures |Reports(o, tl)| <= TechnicalHeadCount
    ensures Reports(AddEngineers(o, tl, engs), tl)
      == Reports(o, tl) + engs[..Min(TechnicalHeadCount - |Reports(o, tl)|, |engs|)]
    decreases |engs|
  {
    LeadWithinHeadCount(o, tl);
    if engs != [] {
      var r1 := TechnicalLeads.AddReport(o, tl, engs[0]);
      AddEngineersStopsAtHeadCount(r1.org, tl, engs[1..]);
      var before, after := Reports(o, tl), Reports(r1.org, tl);
      assert r1.ok ==> after == before + [engs[0]] && |before| < TechnicalHeadCount;
      assert !r1.ok ==> after == before && |before| == TechnicalHeadCount;
      TakeStep(before, after, engs);
    }
  }

  /** Adding engineers touches nobody but the lead and the engineers. */
  lemma {:induction false} AddEngineersFrame(o: Org, tl: int, engs: seq<int>, k: int)
    requires Valid(o) && IsTechnicalLead(o, tl) && AllOfKind(o.staff, engs, EngineerKind)
    requires k in o.staff && k != tl && !IsEngineer(o, k)
    ensures var r := AddEngineers(o, tl, engs); k in r.staff && r.staff[k] == o.staff[k]
    decreases |engs|
  {
    if engs != [] {
      var r1 := TechnicalLeads.AddReport(o, tl, engs[0]);
      assert AddEngineers(o, tl, engs) == AddEngineers(r1.org, tl, engs[1..]);
      AddEngineersFrame(r1.org, tl, engs[1..], k);
    }
  }

  /** The employees and teams of a sequence of business `addReport` calls. */
  predicate Assignments(o: Org, pairs: seq<(int, int)>) {
    forall i :: 0 <= i < |pairs| ==> IsAccountant(o, pairs[i].0) && IsTechnicalLead(o, pairs[i].1)
  }

  /** Repeated `addReport` calls of one business lead, in order. */
  function AddAccountants(o: Org, bl: int, pairs: seq<(int, int)>): (r: Org)
    requires Valid(o) && IsBusinessLead(o, bl) && Assignments(o, pairs)
    ensures Valid(r) && IsBusinessLead(r, bl) && KeepsKinds(o.staff, r.staff)
    decreases |pairs|
  {
    if pairs == [] then o
    else
      var r1 := BusinessLeads.AddReport(o, bl, pairs[0].0, pairs[0].1);
      AddAccountants(r1.org, bl, pairs[1..])
  }

  /** The business lead's budget is additive: every accountant actually added contributes
      50000 * 1.1 = 55000, and at most 10 are ever added. */
  lemma {:induction false} AddAccountantsBudget(o: Org, bl: int, pairs: seq<(int, int)>)
    requires Valid(o) && IsBusinessLead(o, bl) && Assignments(o, pairs)
    ensures |Reports(o, bl)| <= BusinessHeadCount
    ensures var added := Min(BusinessHeadCount - |Reports(o, bl)|, |pairs|);
      var r := AddAccountants(o, bl, pairs);
      && |Reports(r, bl)| == |Reports(o, bl)| + added
      && BonusBudget(r, bl) == BonusBudget(o, bl) + 55000.0 * (added as real)
    decreases |pairs|
  {
    LeadWithinHeadCount(o, bl);
    if pairs != [] {
      var r1 := BusinessLeads.AddReport(o, bl, pairs[0].0, pairs[0].1);
      AddAccountantsBudget(r1.org, bl, pairs[1..]);
    }
  }

  /** Supporting a second team discards the first computation entirely: the budget is
      recomputed from the second lead's reports only. */
  lemma SupportTeamDiscardsPrevious(o: Org, acc: int, first: int, second: int)
    requires Valid(o) && IsAccountant(o, acc) && IsTechnicalLead(o, first) && IsTechnicalLead(o, second)
    ensures SupportTeam(SupportTeam(o, acc, first), acc, second) == SupportTeam(o, acc, second)
  {
  }

  /** Two employees created one after the other get increasing identities and are never
      equal, even when they have the same name and role and so agree on every attribute
      but the identity. */
  lemma SeparateHiresNeverEqual(o: Org, name1: string, k1: Kind, name2: string, k2: Kind)
    requires Valid(o)
    ensures var h1 := Hire(o, name1, k1);
      var h2 := Hire(h1.org, name2, k2);
      && h1.id < h2.id
      && !Equals(h2.org.staff[h1.id], h2.org.staff[h2.id])
      && (name1 == name2 && k1 == k2 ==> h2.org.staff[h1.id].(id := h2.id) == h2.org.staff[h2.id])
  {
  }

  /** Once an engineer is added to a lead, that lead approves its check-ins exactly when the
      engineer has code access, and any other lead refuses them even with code access. */
  lemma CheckInFollowsManager(o: Org, tl: int, other: int, eng: int, access: bool)
    requires Valid(o) && IsTechnicalLead(o, tl) && IsTechnicalLead(o, other) && other != tl
    requires IsEngineer(o, eng) && |Reports(o, tl)| < TechnicalHeadCount
    ensures var added := TechnicalLeads.AddReport(o, tl, eng);
      var r := SetCodeAccess(added.org, eng, access);
      && added.ok
      && (TechnicalLeads.ApproveCheckIn(r, tl, eng) <==> access)
      && !TechnicalLeads.ApproveCheckIn(r, other, eng)
  {
  }

  /** Without an accountant supporting the employee's manager a business lead approves nothing. */
  lemma ApproveBonusNeedsSupporter(o: Org, bl: int, e: int, bonus: real)
    requires Valid(o) && IsBusinessLead(o, bl) && e in o.staff
    requires forall a :: a in Reports(o, bl) && IsAccountant(o, a) ==> TeamSupported(o, a) != ManagerOf(o, e)
    ensures BusinessLeads.ApproveBonus(o, bl, e, bonus) == Outcome(o, false)
  {
  }

  /** A granted approval debits exactly one accountant, the first in report order that supports
      the employee's manager and can afford the bonus; everybody else is untouched. */
  lemma ApproveBonusDebitsFirstSupporter(o: Org, bl: int, e: int, bonus: real)
    requires Valid(o) && IsBusinessLead(o, bl) && e in o.staff
    ensures var r := BusinessLeads.ApproveBonus(o, bl, e, bonus);
      r.ok ==> exists i ::
        && BusinessLeads.FirstGrantable(o, Reports(o, bl), ManagerOf(o, e), bonus, i)
        && TeamSupported(o, Reports(o, bl)[i]) == ManagerOf(o, e)
        && OthersUnchanged(o, r.org, {Reports(o, bl)[i]})
        && IsAccountant(r.org, Reports(o, bl)[i])
        && BonusBudget(r.org, Reports(o, bl)[i]) == BonusBudget(o, Reports(o, bl)[i]) - bonus
  {
  }

  /** A technical lead's request is granted only through its business-lead manager, by one
      of that manager's accountants supporting the employee's manager. */
  lemma TechnicalRequestGrantedBySupporter(o: Org, tl: int, e: int, bonus: real)
    requires Valid(o) && IsTechnicalLead(o, tl) && e in o.staff
    ensures TechnicalLeads.RequestBonus(o, tl, e, bonus).ok ==>
      && TechnicalLeads.ReportsToBusinessLead(o, tl)
      && exists a ::
        (a in Reports(o, ManagerOf(o, tl).value) && BusinessLeads.Grantable(o, a, ManagerOf(o, e), bonus))
  {
  }

  /** The three-engineer team: an accountant supporting a lead of three engineers holds
      75000 * 3 * 1.1 = 247500, and its business lead gains 50000 * 1.1 = 55000. */
  lemma ThreeEngineerTeamBudgets(o: Org, tl: int, engs: seq<int>, bl: int, acc: int)
    requires Valid(o) && IsTechnicalLead(o, tl) && Reports(o, tl) == []
    requires |engs| == 3 && AllOfKind(o.staff, engs, EngineerKind)
    requires IsBusinessLead(o, bl) && Reports(o, bl) == [] && BonusBudget(o, bl) == 0.0
    requires IsAccountant(o, acc)
    ensures var team := AddEngineers(o, tl, engs);
      var r := BusinessLeads.AddReport(team, bl, acc, tl);
      && r.ok
      && BonusBudget(r.org, acc) == 247500.0
      && BonusBudget(r.org, bl) == 55000.0
  {
    var team := AddEngineers(o, tl, engs);
    AddEngineersStopsAtHeadCount(o, tl, engs);
    AddEngineersFrame(o, tl, engs, bl);
    assert Reports(team, tl) == engs;
  }
}
