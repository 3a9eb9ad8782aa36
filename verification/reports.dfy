/**
 * src/pages/Reports.tsx: the single expanded report, the filter handler
 * and the rules of the report preview card.
 */
module Reports {
  import opened Wrappers
  import opened Strings
  import opened Types

  /** `selectedReport === reportId ? null : reportId`. */
  function ToggleSelection(selected: Option<string>, id: string): (r: Option<string>)
    ensures r.None? <==> selected == Some(id)
    ensures r.Some? ==> r.value == id
  {
    if selected == Some(id) then None else Some(id)
  }

  /**
   * Toggling the same report twice restores the selection exactly when it
   * was empty or already that report; from another report it ends empty.
   */
  lemma ToggleSelectionTwice(selected: Option<string>, id: string)
    ensures ToggleSelection(ToggleSelection(selected, id), id) == selected <==> selected.None? || selected == Some(id)
    ensures ToggleSelection(ToggleSelection(selected, id), id) == None <==> selected != Some(id)
  {
  }

  /** The reports whose details are expanded: those whose id is selected. */
  function ExpandedReports(reports: seq<Report>, selected: Option<string>): (r: seq<Report>)
    ensures forall x :: x in r <==> x in reports && selected == Some(x.id)
  {
    if reports == [] then []
    else (if selected == Some(reports[0].id) then [reports[0]] else []) + ExpandedReports(reports[1..], selected)
  }

  predicate DistinctIds(reports: seq<Report>) {
    forall i, j :: 0 <= i < j < |reports| ==> reports[i].id != reports[j].id
  }

  lemma {:induction false} NoneExpanded(reports: seq<Report>, selected: Option<string>)
    requires forall x :: x in reports ==> selected != Some(x.id)
    ensures ExpandedReports(reports, selected) == []
  {
    if reports != [] {
      assert reports[0] in reports;
      assert forall x :: x in reports[1..] ==> x in reports;
      NoneExpanded(reports[1..], selected);
    }
  }

  /** With distinct report ids, at most one report shows its details. */
  lemma {:induction false} AtMostOneExpanded(reports: seq<Report>, selected: Option<string>)
    requires DistinctIds(reports)
    ensures |ExpandedReports(reports, selected)| <= 1
  {
    if reports != [] {
      AtMostOneExpanded(reports[1..], selected);
      if selected == Some(reports[0].id) {
        var rest := ExpandedReports(reports[1..], selected);
        forall x | x in reports[1..]
          ensures x.id != reports[0].id
        {
          var k :| 0 <= k < |reports[1..]| && reports[1..][k] == x;
          assert reports[k + 1] == x;
        }
        NoneExpanded(reports[1..], selected);
      }
    }
  }

  const PreviewLimit: nat := 3

  function Min(a: nat, b: nat): nat {
    if a <= b then a else b
  }

  /** What the preview card lists under "Issues:". */
  datatype Preview = NoIssuesFound | IssueList(shown: seq<Issue>, more: Option<nat>)

  /**
   * `issues.slice(0, 3)` and, past three, `+${issues.length - 3} more issues`;
   * an empty list reads "No issues found".
   */
  function PreviewOf(issues: seq<Issue>): (p: Preview)
    ensures p.NoIssuesFound? <==> |issues| == 0
    ensures p.IssueList? ==> |p.shown| == Min(PreviewLimit, |issues|) && issues == p.shown + issues[|p.shown|..]
    ensures p.IssueList? ==> (p.more.Some? <==> |p.shown| < |issues|)
    ensures p.IssueList? && p.more.Some? ==> |p.shown| + p.more.value == |issues|
  {
    if |issues| == 0 then NoIssuesFound
    else
      var shown := issues[..Min(PreviewLimit, |issues|)];
      assert issues == shown + issues[|shown|..];
      IssueList(shown, if |issues| > PreviewLimit then Some(|issues| - PreviewLimit) else None)
  }

  const MoreIssuesSuffix := " more issues"

  /** The "+N more issues" note: a '+', the hidden count in decimal, then the fixed words. */
  function MoreIssuesText(hidden: nat): (t: string)
    ensures |t| >= 2 + |MoreIssuesSuffix| && t[0] == '+' && EndsWith(t, MoreIssuesSuffix)
    ensures AllDigits(t[1..|t| - |MoreIssuesSuffix|]) && ParseDecimal(t[1..|t| - |MoreIssuesSuffix|]) == hidden
    ensures t[1] == '0' ==> hidden == 0
  {
    var t := "+" + Decimal(hidden) + MoreIssuesSuffix;
    assert t[1..|t| - |MoreIssuesSuffix|] == Decimal(hidden);
    ParseDecimalOfDecimal(hidden);
    t
  }

  /** The note under a preview's issue list, when there is one. */
  function PreviewNote(p: Preview): Option<string> {
    match p
    case IssueList(_, Some(hidden)) => Some(MoreIssuesText(hidden))
    case _ => None
  }

  /**
   * A report's preview carries a "+N more issues" note exactly when it has
   * more than three issues, and N reads back as the number not listed.
   */
  lemma PreviewNoteCountsHidden(issues: seq<Issue>)
    ensures PreviewNote(PreviewOf(issues)).Some? <==> |issues| > PreviewLimit
    ensures PreviewNote(PreviewOf(issues)).Some? ==>
              var t := PreviewNote(PreviewOf(issues)).value;
              |t| >= 2 + |MoreIssuesSuffix| && t[0] == '+' && EndsWith(t, MoreIssuesSuffix) &&
              t[1] != '0' &&
              AllDigits(t[1..|t| - |MoreIssuesSuffix|]) &&
              ParseDecimal(t[1..|t| - |MoreIssuesSuffix|]) == |issues| - PreviewLimit
  {
  }

  /** `issues.some(issue => issue.severity === 'critical')`: the Critical badge. */
  function HasCritical(issues: seq<Issue>): (b: bool)
    ensures b <==> exists i :: 0 <= i < |issues| && issues[i].severity == Critical
  {
    if issues == [] then false
    else
      assert forall i :: 1 <= i < |issues| ==> issues[i] == issues[1..][i - 1];
      issues[0].severity == Critical || HasCritical(issues[1..])
  }

  const DefaultColour := "#00CC00"

  /** The dot colour of a previewed issue. */
  function SeverityColour(severity: Severity): string {
    if severity == Critical then "#FF0000"
    else if severity == High then "#FFA500"
    else if severity == Medium then "#FFCC00"
    else DefaultColour
  }

  /** Critical, high and medium get colours of their own; everything else the default. */
  lemma SeverityColoursDistinct(a: Severity, b: Severity)
    ensures SeverityColour(a) == SeverityColour(b) <==> a == b
    ensures SeverityColour(a) == DefaultColour <==> a == Low
  {
  }

  /** The filter values of the (not modelled) filter panel. */
  type Filters = map<string, string>

  class ReportsView {
    const reports: seq<Report>
    var filters: Filters
    var filteredReports: seq<Report>
    var selectedReport: Option<string>

    constructor(reports: seq<Report>)
      ensures this.reports == reports
      ensures filters == map[] && filteredReports == reports && selectedReport == None
    {
      this.reports := reports;
      filters := map[];
      filteredReports := reports;
      selectedReport := None;
    }

    /** Stores the filters, but shows all reports again: no filtering happens. */
    method HandleFilterChange(newFilters: Filters)
      modifies this`filters, this`filteredReports
      ensures filters == newFilters
      ensures filteredReports == reports
    {
      filters := newFilters;
      filteredReports := reports;
    }

    /** A click on a preview or on View. */
    method ToggleReportSelection(reportId: string)
      modifies this`selectedReport
      ensures selectedReport == ToggleSelection(old(selectedReport), reportId)
    {
      selectedReport := ToggleSelection(selectedReport, reportId);
    }

    /** The Close Details button. */
    method CloseDetails()
      modifies this`selectedReport
      ensures selectedReport == None
    {
      selectedReport := None;
    }
  }
}
