/** The mock-data logic of the stand-alone Flask app: filtering the defects a
    role sees, the dashboard counters, and the labels chosen by role. */
module App {
  import opened DefectRecords

  /** The simulated Homeowner login. */
  const HOMEOWNER_ID: int := 1

  // ---------------------------------------------------------------------------
  // get_defects_for_role
  // ---------------------------------------------------------------------------

  /** `[d for d in data if d['owner_id'] == owner]`. */
  function OwnedBy(data: seq<Defect>, owner: int): (r: seq<Defect>)
    ensures |r| <= |data|
    ensures forall d :: d in r <==> d in data && d.ownerId == owner
  {
    if data == [] then []
    else (if data[0].ownerId == owner then [data[0]] else []) + OwnedBy(data[1..], owner)
  }

  /** The positions from `from` on whose record belongs to `owner`, in increasing order. */
  function OwnedPositions(data: seq<Defect>, owner: int, from: nat): (idx: seq<nat>)
    requires from <= |data|
    decreases |data| - from
    ensures forall i, j :: 0 <= i < j < |idx| ==> idx[i] < idx[j]
    ensures forall k: nat :: k in idx <==> from <= k < |data| && data[k].ownerId == owner
  {
    if from == |data| then []
    else
      var rest := OwnedPositions(data, owner, from + 1);
      assert forall j :: 0 <= j < |rest| ==> from < rest[j] by {
        forall j | 0 <= j < |rest| ensures from < rest[j] {
          assert rest[j] in rest;
        }
      }
      (if data[from].ownerId == owner then [from] else []) + rest
  }

  /** The Homeowner's list is the selection of `data` at `OwnedPositions`: every
      owned record, each once, in its original order. */
  lemma {:induction false} OwnedByIsOrderedSelection(data: seq<Defect>, owner: int, from: nat)
    requires from <= |data|
    decreases |data| - from
    ensures var r, idx := OwnedBy(data[from..], owner), OwnedPositions(data, owner, from);
      |r| == |idx| && forall i :: 0 <= i < |r| ==> idx[i] < |data| && r[i] == data[idx[i]]
  {
    if from < |data| {
      OwnedByIsOrderedSelection(data, owner, from + 1);
      assert data[from..][1..] == data[from + 1..];
    }
  }

  /** `get_defects_for_role`: the Homeowner sees the records of user 1, every
      other role the whole list. */
  function DefectsForRole(data: seq<Defect>, role: string): (r: seq<Defect>)
    ensures role == "Homeowner" ==> r == OwnedBy(data, HOMEOWNER_ID)
    ensures role != "Homeowner" ==> r == data
  {
    if role == "Homeowner" then OwnedBy(data, HOMEOWNER_ID) else data
  }

  // ---------------------------------------------------------------------------
  // The stats dict of dashboard
  // ---------------------------------------------------------------------------

  const PENDING_STATES: set<string> := {"Pending", "In Progress"}
  const COMPLETED_STATES: set<string> := {"Completed"}

  /** `[d for d in ds if d['status'] in states]`. */
  function InStates(ds: seq<Defect>, states: set<string>): (r: seq<Defect>)
    ensures |r| <= |ds|
  {
    if ds == [] then []
    else (if ds[0].status in states then [ds[0]] else []) + InStates(ds[1..], states)
  }

  /** The selection holds every record whose status is one of `states`, as
      often as it occurs in `ds`, and no other record. */
  lemma {:induction false} InStatesCounts(ds: seq<Defect>, states: set<string>)
    ensures forall d :: multiset(InStates(ds, states))[d] == if d.status in states then multiset(ds)[d] else 0
  {
    if ds != [] {
      InStatesCounts(ds[1..], states);
      assert ds == [ds[0]] + ds[1..];
    }
  }

  /** The length of a selection, one record at a time. */
  lemma InStatesCons(ds: seq<Defect>, states: set<string>)
    requires ds != []
    ensures |InStates(ds, states)| == (if ds[0].status in states then 1 else 0) + |InStates(ds[1..], states)|
  {
  }

  /** Two selections by disjoint sets of states together hold at most every
      record, and exactly every record when each status is in one of the sets. */
  lemma {:induction false} DisjointSelections(ds: seq<Defect>, a: set<string>, b: set<string>)
    requires a !! b
    ensures |InStates(ds, a)| + |InStates(ds, b)| <= |ds|
    ensures |InStates(ds, a)| + |InStates(ds, b)| == |ds| <==> forall i :: 0 <= i < |ds| ==> ds[i].status in a + b
  {
    if ds != [] {
      var t := ds[1..];
      DisjointSelections(t, a, b);
      InStatesCons(ds, a);
      InStatesCons(ds, b);
      if |InStates(t, a)| + |InStates(t, b)| == |t| {
        assert forall i :: 1 <= i < |ds| ==> t[i - 1] == ds[i];
      } else {
        var i :| 0 <= i < |t| && t[i].status !in a + b;
        assert ds[i + 1] == t[i];
      }
    }
  }

  datatype Stats = Stats(total: nat, pending: nat, completed: nat)

  /** The `stats` dict built from the list the role sees. No record is both
      pending and completed, so the two counters never add up to more than the
      total; they add up to it exactly when every record is in one of the three
      known states. */
  function DashboardStats(ds: seq<Defect>): (st: Stats)
    ensures st.total == |ds|
    ensures st.pending == |InStates(ds, PENDING_STATES)| && st.completed == |InStates(ds, COMPLETED_STATES)|
    ensures st.pending + st.completed <= st.total
    ensures st.pending + st.completed == st.total <==>
              forall i :: 0 <= i < |ds| ==> ds[i].status in PENDING_STATES + COMPLETED_STATES
  {
    DisjointSelections(ds, PENDING_STATES, COMPLETED_STATES);
    Stats(|ds|, |InStates(ds, PENDING_STATES)|, |InStates(ds, COMPLETED_STATES)|)
  }

  // ---------------------------------------------------------------------------
  // Labels chosen by role
  // ---------------------------------------------------------------------------

  /** The template `dashboard` renders. */
  function DashboardTemplate(role: string): (t: string)
    ensures role == "Homeowner" ==> t == "dashboard_homeowner.html"
    ensures role == "Developer" ==> t == "dashboard_developer.html"
    ensures role != "Homeowner" && role != "Developer" ==> t == "dashboard_legal.html"
  {
    if role == "Homeowner" then "dashboard_homeowner.html"
    else if role == "Developer" then "dashboard_developer.html"
    else "dashboard_legal.html"
  }

  /** The `report_type` of `generate_report`: the initial "Generic Report" is
      always overwritten, whatever the role. */
  function ReportType(role: string): (t: string)
    ensures t != "Generic Report"
    ensures t == "Defect Claim Report" <==> role == "Homeowner"
    ensures t == "Repair Compliance Report" <==> role == "Developer"
    ensures t == "Full Compliance Report" <==> role != "Homeowner" && role != "Developer"
  {
    if role == "Homeowner" then "Defect Claim Report"
    else if role == "Developer" then "Repair Compliance Report"
    else "Full Compliance Report"
  }

  // ---------------------------------------------------------------------------
  // mock_ai_generate_narrative
  // ---------------------------------------------------------------------------

  const NARRATIVE_HEAD: string := "AI Analysis: The reported "
  const NARRATIVE_TAIL: string :=
    " has been analyzed. Severity: Moderate. Recommended action: Immediate inspection by a qualified technician."

  /** The narrative quotes the description verbatim, between single quotes,
      after a fixed opening and before a fixed verdict. */
  function MockNarrative(desc: string): (r: string)
    ensures |r| == |NARRATIVE_HEAD| + |desc| + 2 + |NARRATIVE_TAIL|
    ensures r[..|NARRATIVE_HEAD|] == NARRATIVE_HEAD
    ensures r[|NARRATIVE_HEAD|] == '\'' && r[|NARRATIVE_HEAD| + 1 + |desc|] == '\''
    ensures r[|NARRATIVE_HEAD| + 1..|NARRATIVE_HEAD| + 1 + |desc|] == desc
    ensures r[|r| - |NARRATIVE_TAIL|..] == NARRATIVE_TAIL
  {
    NARRATIVE_HEAD + "'" + desc + "'" + NARRATIVE_TAIL
  }
}
