/** The blueprint's mock-data logic: the in-place status and remark updates,
    the labels the dashboard and the PDF export choose by role, and the remark
    line of a Homeowner report. */
module Routes {
  import opened Wrappers
  import opened DefectRecords
  import App

  // ---------------------------------------------------------------------------
  // Finding the record to update
  // ---------------------------------------------------------------------------

  /** The position of the first record with the given id, if there is one. */
  function FirstWithId(s: seq<Defect>, id: int): (r: Option<nat>)
    ensures r.Some? ==> r.value < |s| && s[r.value].id == id
    ensures r.Some? ==> forall j :: 0 <= j < r.value ==> s[j].id != id
    ensures r.None? ==> forall j :: 0 <= j < |s| ==> s[j].id != id
  {
    if s == [] then None
    else if s[0].id == id then Some(0)
    else match FirstWithId(s[1..], id)
      case None => None
      case Some(k) => Some(k + 1)
  }

  /** The list after `update_status`: the first record with the id gets the new
      status; if none has it, the list is as it was. */
  function WithStatus(s: seq<Defect>, id: int, status: string): seq<Defect>
  {
    match FirstWithId(s, id)
    case Some(i) => s[i := s[i].(status := status)]
    case None => s
  }

  /** The list after `add_remark`: the first record with the id gets the remark. */
  function WithRemark(s: seq<Defect>, id: int, remark: string): seq<Defect>
  {
    match FirstWithId(s, id)
    case Some(i) => s[i := s[i].(remarks := Some(remark))]
    case None => s
  }

  /** `update_status` touches one field of one record: the first one whose id
      matches. Length, order, every other record and every other field stay. */
  lemma {:induction false} WithStatusChangesOnlyFirstMatch(s: seq<Defect>, id: int, status: string)
    ensures var r := WithStatus(s, id, status);
      && |r| == |s|
      && (forall j :: 0 <= j < |s| ==> r[j].id == s[j].id && r[j].(status := s[j].status) == s[j])
      && (forall j :: 0 <= j < |s| && r[j] != s[j] ==> FirstWithId(s, id) == Some(j))
      && ((exists j :: 0 <= j < |s| && s[j].id == id) ==>
            var i := FirstWithId(s, id).value; r[i].status == status)
      && ((forall j :: 0 <= j < |s| ==> s[j].id != id) ==> r == s)
  {
    if exists j :: 0 <= j < |s| && s[j].id == id {
      assert FirstWithId(s, id).Some?;
    }
  }

  /** `add_remark` sets the remark of the first matching record and leaves its
      status, and every other record, as they were. */
  lemma {:induction false} WithRemarkChangesOnlyFirstMatch(s: seq<Defect>, id: int, remark: string)
    ensures var r := WithRemark(s, id, remark);
      && |r| == |s|
      && (forall j :: 0 <= j < |s| ==>
            r[j].id == s[j].id && r[j].status == s[j].status && r[j].(remarks := s[j].remarks) == s[j])
      && (forall j :: 0 <= j < |s| && r[j] != s[j] ==> FirstWithId(s, id) == Some(j))
      && ((exists j :: 0 <= j < |s| && s[j].id == id) ==>
            var i := FirstWithId(s, id).value; r[i].remarks == Some(remark))
      && ((forall j :: 0 <= j < |s| ==> s[j].id != id) ==> r == s)
  {
    if exists j :: 0 <= j < |s| && s[j].id == id {
      assert FirstWithId(s, id).Some?;
    }
  }

  // ---------------------------------------------------------------------------
  // The two update handlers, in place on the shared list
  // ---------------------------------------------------------------------------

  datatype Reply = Reply(status: string, message: Option<string>)

  /** `update_status`: walks the list, sets the status of the first record with
      the id and stops. The reply says "success" whether or not a record matched. */
  method UpdateStatus(defects: array<Defect>, id: int, newStatus: string) returns (reply: Reply)
    modifies defects
    ensures defects[..] == WithStatus(old(defects[..]), id, newStatus)
    ensures reply == Reply("success", Some("Defect status updated"))
  {
    var i := 0;
    while i < defects.Length
      invariant 0 <= i <= defects.Length
      invariant defects[..] == old(defects[..])
      invariant forall j :: 0 <= j < i ==> defects[j].id != id
    {
      if defects[i].id == id {
        defects[i] := defects[i].(status := newStatus);
        break;
      }
      i := i + 1;
    }
    reply := Reply("success", Some("Defect status updated"));
  }

  /** `add_remark`: sets the remark of the first record with the id and stops. */
  method AddRemark(defects: array<Defect>, id: int, remark: string) returns (reply: Reply)
    modifies defects
    ensures defects[..] == WithRemark(old(defects[..]), id, remark)
    ensures reply == Reply("success", None)
  {
    var i := 0;
    while i < defects.Length
      invariant 0 <= i <= defects.Length
      invariant defects[..] == old(defects[..])
      invariant forall j :: 0 <= j < i ==> defects[j].id != id
    {
      if defects[i].id == id {
        defects[i] := defects[i].(remarks := Some(remark));
        break;
      }
      i := i + 1;
    }
    reply := Reply("success", None);
  }

  // ---------------------------------------------------------------------------
  // Labels chosen by role
  // ---------------------------------------------------------------------------

  /** The template the blueprint's `dashboard` renders. */
  function DashboardTemplate(role: string): (t: string)
    ensures t == "dashboard_homeowner.html" <==> role == "Homeowner"
    ensures t == "dashboard_developer.html" <==> role == "Developer"
    ensures t == "dashboard_legal.html" <==> role != "Homeowner" && role != "Developer"
  {
    if role == "Homeowner" then "dashboard_homeowner.html"
    else if role == "Developer" then "dashboard_developer.html"
    else "dashboard_legal.html"
  }

  datatype Heading = Heading(title: string, preparedBy: string)

  /** The PDF title and "Prepared by" line: Legal and Developer get their own,
      every other role, unknown ones included, the Homeowner's. */
  function PdfHeading(role: string): (h: Heading)
    ensures h.title == "DLP Full Compliance Report" <==> role == "Legal"
    ensures h.title == "DLP Repair Compliance Report" <==> role == "Developer"
    ensures h.title == "DLP Defect Claim Report" <==> role != "Legal" && role != "Developer"
    ensures h.preparedBy == (if role == "Legal" then "Legal Officer" else if role == "Developer" then "Developer" else "Homeowner")
  {
    if role == "Legal" then Heading("DLP Full Compliance Report", "Legal Officer")
    else if role == "Developer" then Heading("DLP Repair Compliance Report", "Developer")
    else Heading("DLP Defect Claim Report", "Homeowner")
  }

  /** The download name of the exported PDF. */
  function ExportFilename(role: string): (f: string)
    ensures f == "dlp_full_compliance_report.pdf" <==> role == "Legal"
    ensures f != "dlp_full_compliance_report.pdf" ==> f == "dlp_report.pdf"
  {
    if role == "Legal" then "dlp_full_compliance_report.pdf" else "dlp_report.pdf"
  }

  /** The remark line under a defect in the PDF: only in a Homeowner report and
      only for a record whose remark is present and not empty. */
  function RemarkLine(role: string, d: Defect): (line: Option<string>)
    ensures line.Some? <==> role == "Homeowner" && d.remarks.Some? && d.remarks.value != ""
    ensures line.Some? ==> line.value == "Remark: " + d.remarks.value
  {
    if role == "Homeowner" && d.remarks.Some? && d.remarks.value != "" then Some("Remark: " + d.remarks.value)
    else None
  }

  // ---------------------------------------------------------------------------
  // The blueprint's labels against the stand-alone app's
  // ---------------------------------------------------------------------------

  /** For the three roles the application knows, the PDF title is the app's
      report type with the "DLP " prefix, and both dashboards pick the same
      template. */
  lemma LabelsAgreeOnKnownRoles(role: string)
    requires role == "Homeowner" || role == "Developer" || role == "Legal"
    ensures PdfHeading(role).title == "DLP " + App.ReportType(role)
    ensures DashboardTemplate(role) == App.DashboardTemplate(role)
  {
    if role == "Homeowner" {
      HomeownerLabels();
    } else if role == "Developer" {
      DeveloperLabels();
    } else {
      LegalLabels();
    }
  }

  // One role at a time: the three string comparisons together are too costly
  // for a single proof obligation.

  lemma HomeownerLabels()
    ensures PdfHeading("Homeowner").title == "DLP " + App.ReportType("Homeowner")
    ensures DashboardTemplate("Homeowner") == App.DashboardTemplate("Homeowner")
  {
  }

  lemma DeveloperLabels()
    ensures PdfHeading("Developer").title == "DLP " + App.ReportType("Developer")
    ensures DashboardTemplate("Developer") == App.DashboardTemplate("Developer")
  {
  }

  lemma LegalLabels()
    ensures PdfHeading("Legal").title == "DLP " + App.ReportType("Legal")
    ensures DashboardTemplate("Legal") == App.DashboardTemplate("Legal")
  {
  }

  /** An unknown role is read two ways: the app gives it the full compliance
      report and the legal dashboard, the PDF export the Homeowner's claim
      report. */
  lemma LabelsDisagreeOnUnknownRole(role: string)
    requires role != "Homeowner" && role != "Developer" && role != "Legal"
    ensures App.ReportType(role) == "Full Compliance Report"
    ensures App.DashboardTemplate(role) == "dashboard_legal.html"
    ensures PdfHeading(role) == Heading("DLP Defect Claim Report", "Homeowner")
  {
  }
}
