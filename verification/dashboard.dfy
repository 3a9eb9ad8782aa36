/**
 * src/pages/Dashboard.tsx: the three status counts shown on the dashboard
 * and the Start Walkthrough dropdown.
 */
module Dashboard {
  import opened Types
  import opened Lists

  predicate IsCompleted(inspection: Inspection) {
    inspection.status == Completed
  }

  /** 'open' or 'in-progress'. */
  predicate IsActive(issue: Issue) {
    issue.status == Open || issue.status == InProgress
  }

  predicate IsResolved(issue: Issue) {
    issue.status == Resolved
  }

  /** `recentInspections.filter(i => i.status === 'completed')`. */
  function CompletedInspections(inspections: seq<Inspection>): (r: seq<Inspection>)
    ensures forall x :: x in r <==> x in inspections && IsCompleted(x)
    ensures forall x :: multiset(r)[x] == if IsCompleted(x) then multiset(inspections)[x] else 0
  {
    Filter(inspections, IsCompleted)
  }

  /** `issues.filter(i => i.status === 'open' || i.status === 'in-progress')`. */
  function ActiveIssues(issues: seq<Issue>): (r: seq<Issue>)
    ensures forall x :: x in r <==> x in issues && IsActive(x)
    ensures forall x :: multiset(r)[x] == if IsActive(x) then multiset(issues)[x] else 0
  {
    Filter(issues, IsActive)
  }

  /** `issues.filter(i => i.status === 'resolved')`. */
  function ResolvedIssues(issues: seq<Issue>): (r: seq<Issue>)
    ensures forall x :: x in r <==> x in issues && IsResolved(x)
    ensures forall x :: multiset(r)[x] == if IsResolved(x) then multiset(issues)[x] else 0
  {
    Filter(issues, IsResolved)
  }

  /**
   * Every issue is counted exactly once by the two issue cards: the three
   * statuses split into active and resolved.
   */
  lemma ActiveResolvedPartition(issues: seq<Issue>)
    ensures |ActiveIssues(issues)| + |ResolvedIssues(issues)| == |issues|
  {
    FilterPartition(issues, IsActive, IsResolved);
  }

  /** Counting is per issue: the count of a concatenation is the sum of the counts. */
  lemma ActiveIssuesAppend(a: seq<Issue>, b: seq<Issue>)
    ensures ActiveIssues(a + b) == ActiveIssues(a) + ActiveIssues(b)
  {
    FilterAppend(a, b, IsActive);
  }

  datatype StatusCounts = StatusCounts(completedInspections: nat, activeIssues: nat, resolvedIssues: nat)

  /** The numbers on the three status cards. */
  function Counts(inspections: seq<Inspection>, issues: seq<Issue>): (c: StatusCounts)
    ensures c.completedInspections <= |inspections|
    ensures c.activeIssues + c.resolvedIssues == |issues|
  {
    ActiveResolvedPartition(issues);
    FilterPartition(inspections, IsCompleted, x => !IsCompleted(x));
    StatusCounts(|CompletedInspections(inspections)|, |ActiveIssues(issues)|, |ResolvedIssues(issues)|)
  }

  /** Each card shows the number of records whose status matches. */
  lemma CountsCountMatches(inspections: seq<Inspection>, issues: seq<Issue>)
    ensures Counts(inspections, issues).completedInspections == |Positions(inspections, IsCompleted)|
    ensures Counts(inspections, issues).activeIssues == |Positions(issues, IsActive)|
    ensures Counts(inspections, issues).resolvedIssues == |Positions(issues, IsResolved)|
  {
    FilterLength(inspections, IsCompleted);
    FilterLength(issues, IsActive);
    FilterLength(issues, IsResolved);
  }

  /** The route state startWalkthrough hands to the inspection page. */
  datatype Route = InspectionRoute(datahallId: string)

  class WalkthroughMenu {
    var isDropdownOpen: bool

    constructor()
      ensures !isDropdownOpen
    {
      isDropdownOpen := false;
    }

    /** The Start Walkthrough button. */
    method ToggleDropdown()
      modifies this
      ensures isDropdownOpen == !old(isDropdownOpen)
    {
      isDropdownOpen := !isDropdownOpen;
    }

    /** A click on the backdrop. */
    method CloseDropdown()
      modifies this
      ensures !isDropdownOpen
    {
      isDropdownOpen := false;
    }

    /** Choosing a data centre: navigate with its id unchanged and close the menu. */
    method StartWalkthrough(datahallId: string) returns (route: Route)
      modifies this
      ensures route.datahallId == datahallId
      ensures !isDropdownOpen
    {
      route := InspectionRoute(datahallId);
      isDropdownOpen := false;
    }
  }
}
