# Company structure: a Dafny model

This project models the company-structure library in `ecosystem.java`. The library
describes a small organisation:

- software engineers report to technical leads, with at most 4 reports per lead;
- accountants report to business leads, with at most 10 reports per lead;
- every employee gets its identity from one shared counter;
- bonus requests travel from a technical lead to its business-lead manager, and on to
  the accountant who supports the employee's team.

The Java class hierarchy (`Employee`, `TechnicalEmployee`, `BusinessEmployee`,
`SoftwareEngineer`, `Accountant`, `TechnicalLead`, `BusinessLead`) becomes one `Employee`
record with a tagged `Role` payload. The organisation is an explicit value `Org`. It holds
a map from identity to employee and the identity counter. Object references become
identities: the manager, the supported team and the report lists. A `null` reference
becomes `None`. Every mutating method becomes a pure function from one `Org` to the next.
Operations that return a boolean return an `Outcome(org, ok)`. Money is `real`, so the
10% margin is exactly `1.1`.

`Organisation.Valid` is the invariant every operation keeps:

- identities are the map keys and lie between 1 and the counter;
- every salary is the one its track's constructor fixes (75000 or 50000);
- every reference names an employee of the right role;
- no lead holds more reports than its headcount;
- no bonus budget is negative.

Modules, leaf first: `Options`, `Staff` (roles, constants, construction, equality),
`Organisation` (state, invariant, creation, setters), `Accountants`, `BusinessLeads`,
`TechnicalLeads`, and `Properties`, which holds the lemmas that relate several calls.

Adding an accountant grows the business lead's budget by the accountant's own salary
times 1.1, which is 50000 × 1.1 = 55000 (ecosystem.java:215).
`Properties.ThreeEngineerTeamBudgets` proves 247500 for an accountant supporting three
engineers and 55000 for its lead.

A business lead's own bonus request never reaches an accountant. It asks the employee's
manager to approve (ecosystem.java:225). That approval needs an accountant whose supported
team is that manager (ecosystem.java:234). Supported teams are always technical leads, so a
business-lead manager is never matched. `BusinessLeads.ForwardToManager` proves that the
forwarded call changes nothing.

## Model

| member | source | states |
|---|---|---|
| Staff.NewEmployee | ecosystem.java:51-203 | a new employee has no manager, and its role starts with zero check-ins, no code access, a zero budget, no supported team, no reports and the default headcount; technical roles earn 75000 and business roles 50000 |
| Organisation.EmptyValid | ecosystem.java:5 | the organisation before any employee exists, with the counter at 0, satisfies the invariant that every operation keeps |
| Organisation.Hire | ecosystem.java:11-15 | the shared counter goes up by one for every kind of employee, and its new value is the identity; that identity was never used before; no existing employee changes; the invariant is kept |
| Organisation.HireAll | ecosystem.java:5-15 | employees created one after another get the identities counter+1, counter+2, …, so they are strictly increasing, pairwise distinct and new; each new identity holds exactly the employee its constructor builds from the given name and role; the employees that already existed are unchanged |
| Organisation.HireAllAddsOnlyNew | ecosystem.java:5-15 | after creating several employees the organisation holds exactly the employees it held before plus the identities the counter passed through, nothing else |
| Organisation.EqualsIffSameKey | ecosystem.java:37-39 | in a valid organisation, two employees are equal exactly when they are the same entry |
| Properties.SeparateHiresNeverEqual | ecosystem.java:11-15 | two employees created in a row are never equal, even with the same name and role, when their records differ only in the identity |
| Organisation.SetManager | ecosystem.java:33-35 | the manager becomes the given employee or nobody, without any check; nothing else changes |
| Organisation.SetCodeAccess | ecosystem.java:105-107 | the engineer's code-access flag becomes the given value; the rest of its record (name, check-ins, manager) and everybody else are unchanged |
| Organisation.AddCheckIn | ecosystem.java:63-65 | a technical employee's check-in count goes up by exactly one; the rest of its record and everybody else are unchanged |
| TechnicalLeads.HasHeadCount | ecosystem.java:155-157 | a technical lead has room exactly when it holds fewer than 4 reports |
| TechnicalLeads.AddReport | ecosystem.java:159-166 | succeeds exactly when the lead holds fewer than 4 reports; on success the engineer is appended even if already present and the lead becomes its manager; the lead's check-ins, the engineer's other fields and everybody else are unchanged; on failure nothing changes; nobody changes role |
| Properties.AddEngineersStopsAtHeadCount | ecosystem.java:145-166 | a sequence of add-report calls takes engineers in order until the lead holds 4 and refuses every later one: the reports become the old ones plus the first min(4 − size, n) engineers |
| TechnicalLeads.ApproveCheckIn | ecosystem.java:168-170 | true exactly when the engineer's manager is this lead and the engineer has code access; a function, so it changes nothing, check-in counts included |
| Properties.CheckInFollowsManager | ecosystem.java:159-170 | after an engineer is added to a lead, that lead approves the engineer's check-ins exactly when it has code access; any other lead refuses them even with code access |
| TechnicalLeads.RequestBonus | ecosystem.java:172-178 | refused with no change when the lead's manager is not a business lead; otherwise the result is exactly that manager's approval; at most accountants' records change |
| Properties.TechnicalRequestGrantedBySupporter | ecosystem.java:172-178 | a granted technical-lead request means the lead reports to a business lead, and one of that lead's accountants supports the employee's manager and can afford the bonus |
| Accountants.TeamSalaryOfEngineers | ecosystem.java:130-133 | the salary total of a list of engineers is 75000 times its length, counting repeats |
| Accountants.SupportTeam | ecosystem.java:127-135 | the accountant now supports the given lead, and its budget becomes 1.1 × 75000 × the number of that lead's reports, whatever it was before; its name and manager and everybody else are unchanged |
| Properties.SupportTeamDiscardsPrevious | ecosystem.java:127-135 | supporting one team and then another gives exactly the state of supporting only the second one: nothing carries over from the first |
| Accountants.Grant | ecosystem.java:235 | assumed behaviour of the per-accountant grant: it succeeds exactly when the bonus fits the accountant's budget, then debits exactly that amount; the accountant's name, manager and team and everybody else are unchanged |
| BusinessLeads.HasHeadCount | ecosystem.java:205-207 | a business lead has room exactly when it holds fewer than 10 reports |
| BusinessLeads.AppendReport | ecosystem.java:211 | the accountant is appended at the end of the lead's reports; the lead's budget, name and manager and everybody else are unchanged |
| BusinessLeads.AddReport | ecosystem.java:209-219 | succeeds exactly when the lead holds fewer than 10 reports; on success the accountant is appended, managed by the lead and supports the given team with a budget of 82500 per report of that team, and the lead's budget grows by exactly 55000; the other fields of both records, names included, and everybody else are unchanged; on failure nothing changes |
| Properties.AddAccountantsBudget | ecosystem.java:195-219 | a sequence of add-report calls adds min(10 − size, n) accountants, and the lead's budget grows by exactly 55000 for each accountant actually added |
| Properties.ThreeEngineerTeamBudgets | ecosystem.java:209-219 | a lead with three engineers and an accountant supporting it: the accountant holds 247500 and its business lead 55000 |
| BusinessLeads.Scan | ecosystem.java:233-240 | scanning accountants in order grants exactly when one of them supports the team and can afford the bonus; the grant comes from the first such accountant and debits only it; when nothing is granted nothing changes |
| BusinessLeads.ApproveBonus | ecosystem.java:231-241 | a business lead approves exactly when one of its reports supports the employee's manager and can afford the bonus; the state is that of the first such accountant's grant; otherwise nothing changes |
| Properties.ApproveBonusNeedsSupporter | ecosystem.java:232-241 | when no report supports the employee's manager, approval fails and nothing changes |
| Properties.ApproveBonusDebitsFirstSupporter | ecosystem.java:232-241 | a granted approval debits exactly the bonus from the first grantable supporter in report order; every other employee is untouched |
| BusinessLeads.ForwardToManager | ecosystem.java:225 | the approval asked of the employee's manager never changes anything: only a business-lead manager approves, and no accountant supports a business lead's team |
| BusinessLeads.RequestBonus | ecosystem.java:221-229 | succeeds exactly when the bonus fits the lead's budget; on success the budget drops by exactly the bonus and reports success, and nothing else changes, because the forwarded approval grants nothing; on failure nothing changes; the invariant keeps every budget non-negative |

## Left out

- The status strings are left out: `toString`, every `employeeStatus` and `getTeamStatus`. They are console formatting only. `Accountant.employeeStatus` would also dereference a missing supported team.
- `CompanyStructure.main` is left out. It is a demonstration driver that only prints.
- Organisation.Hire: the Java counter is a 32-bit `int` (ecosystem.java:5,14). After 2^31 − 1 employees it wraps to negative identities, and after 2^32 it repeats them. The model's counter is unbounded, so its freshness and increase hold only below that bound.
- Organisation.HireAll: identities are increasing and distinct only below 2^31 − 1 employees, for the same 32-bit wrap-around reason.
- Organisation.AddCheckIn: `checkIns++` (ecosystem.java:64) wraps at 2^31 − 1 in Java. The model counts with an unbounded `nat`.
- Budgets use exact `real` arithmetic. IEEE-754 rounding of the Java `double` values is not modelled, so 75000 × 3 × 1.1 is exactly 247500 here.
- Accountants.Grant: the per-accountant `approveBonus(bonus)` called at ecosystem.java:235 is not defined in the file. Its behaviour is an assumption: it grants exactly when the bonus does not exceed the accountant's budget, and then debits the bonus.
- BusinessLeads.ForwardToManager: `e.getManager().approveBonus(...)` (ecosystem.java:225) is called on an `Employee`, which has no such method, so the source does not compile here. The model dispatches the call to a business-lead manager only. With any other manager the call does nothing. With no manager the call also does nothing, where Java would fail on a null dereference after debiting the budget.
- Accountants.SupportTeam: `supportTeam` calls `lead.getDirectReports()` (ecosystem.java:131), which `TechnicalLead` does not define; the model reads the lead's `directReports` list (ecosystem.java:147) in its place.
- Other compile errors are not modelled: the `private` budget written from subclasses (ecosystem.java:75, 134, 215), and `@Override` on bonus methods that no superclass declares (ecosystem.java:221, 231). The model treats the budget as a plain field of the business roles.
- Only the four concrete roles are created. The source can also build plain `Employee`, `TechnicalEmployee` and `BusinessEmployee` objects, but no operation relies on them.
- `null` arguments are not modelled: a missing report, a missing supported lead, a missing employee. Operations take identities of existing employees of the role the Java parameter type names. The one `null` comparison that matters is kept: `approveBonus` compares `getTeamSupported()` with `getManager()`, and the model compares `Option` values, so a missing manager matches an accountant with no team.
- Getters and the fixed `headCount` fields become accessor functions. The headcount values are part of the invariant and are not separate operations.
