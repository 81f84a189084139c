/**
  The people of the organisation. The class hierarchy
  Employee -> TechnicalEmployee / BusinessEmployee -> SoftwareEngineer, TechnicalLead,
  Accountant, BusinessLead is flattened into one record with a tagged role payload.
  References to other employees (manager, supported team, reports) are employee IDs.
 */
module Staff {
  import opened Options

  /** Base salary every technical employee is constructed with. */
  const TechnicalSalary: real := 75000.0
  /** Base salary every business employee is constructed with. */
  const BusinessSalary: real := 50000.0
  /** Default headcount of a technical lead. */
  const TechnicalHeadCount: nat := 4
  /** Default headcount of a business lead. */
  const BusinessHeadCount: nat := 10
  /** The 10% margin applied to salaries when bonus budgets are computed. */
  const Margin: real := 1.1

  /** The concrete roles an employee can be created with. */
  datatype Kind = EngineerKind | TechnicalLeadKind | AccountantKind | BusinessLeadKind

  /** Role-specific state. Technical roles count check-ins, business roles hold a bonus budget. */
  datatype Role =
    | SoftwareEngineer(checkIns: nat, codeAccess: bool)
    | TechnicalLead(checkIns: nat, headCount: nat, reports: seq<int>)
    | Accountant(bonusBudget: real, teamSupported: Option<int>)
    | BusinessLead(bonusBudget: real, headCount: nat, reports: seq<int>)

  datatype Employee = Employee(id: int, name: string, baseSalary: real, manager: Option<int>, role: Role)

  function KindOf(r: Role): Kind {
    match r
    case SoftwareEngineer(_, _) => EngineerKind
    case TechnicalLead(_, _, _) => TechnicalLeadKind
    case Accountant(_, _) => AccountantKind
    case BusinessLead(_, _, _) => BusinessLeadKind
  }

  predicate IsTechnicalKind(k: Kind) {
    k == EngineerKind || k == TechnicalLeadKind
  }

  /** The salary fixed by the track constructor a role goes through. */
  function TrackSalary(k: Kind): real {
    if IsTechnicalKind(k) then TechnicalSalary else BusinessSalary
  }

  /** A role as its constructor leaves it: no check-ins, no code access, empty budget,
      no supported team, no reports and the default headcount. */
  predicate Pristine(r: Role) {
    match r
    case SoftwareEngineer(checkIns, codeAccess) => checkIns == 0 && !codeAccess
    case TechnicalLead(checkIns, headCount, reports) =>
      checkIns == 0 && headCount == TechnicalHeadCount && reports == []
    case Accountant(budget, team) => budget == 0.0 && team == None
    case BusinessLead(budget, headCount, reports) =>
      budget == 0.0 && headCount == BusinessHeadCount && reports == []
  }

  /** Construction of an employee of the given kind with a given identity. */
  function NewEmployee(id: int, name: string, k: Kind): (e: Employee)
    ensures e.id == id && e.name == name && e.manager == None
    ensures KindOf(e.role) == k && Pristine(e.role)
    ensures e.baseSalary == TrackSalary(k)
    ensures IsTechnicalKind(k) ==> e.baseSalary == 75000.0
    ensures !IsTechnicalKind(k) ==> e.baseSalary == 50000.0
  {
    var role := match k
      case EngineerKind => SoftwareEngineer(0, false)
      case TechnicalLeadKind => TechnicalLead(0, TechnicalHeadCount, [])
      case AccountantKind => Accountant(0.0, None)
      case BusinessLeadKind => BusinessLead(0.0, BusinessHeadCount, []);
    Employee(id, name, TrackSalary(k), None, role)
  }

  /** Employee equality: by identity only, never by attributes. */
  predicate Equals(a: Employee, b: Employee) {
    a.id == b.id
  }
}
