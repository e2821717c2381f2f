/** The planning stage (`Planningform.tsx`): packets whose galaxy scanning has
    been submitted are offered for planning; the planning table is rendered
    with a number formatter and a status badge. */
module Planning {
  import opened Common
  import opened Foreign

  /** A row of the galaxy-scanning list the planning screen draws from. */
  datatype GalaxyRow = GalaxyRow(packetNo: string, status: string)

  datatype AssignData = AssignData(packetNo: string, plannername: string, assignDate: string)

  /** `csvFile` is the chosen upload, if any (its contents are not modelled). */
  datatype SubmitData = SubmitData(packetNo: string, plannername: string, csvFile: Option<string>)

  const EmptyAssign := AssignData("", "", "")
  const EmptySubmit := SubmitData("", "", None)

  datatype Problem = MissingFields | RequestFailed(message: string)

  datatype Source = AvailableList | PlanningTable

  /** The notification a failed load of the available packets shows. */
  const PacketsUnavailable := "Failed to fetch available packets"

  /** A planning table row; only the fields the screen's logic looks at. */
  datatype PlanningEntry = PlanningEntry(id: int, packetNo: string, plannerName: string, status: string)

  /** The test of the dropdown's filter. */
  predicate IsSubmitted(g: GalaxyRow) {
    g.status == "submitted"
  }

  /** The packet numbers of the galaxy rows whose status is exactly
      `submitted`, in order; a payload that is not an array gives none. */
  function SubmittedPackets(data: Option<seq<GalaxyRow>>): (r: seq<string>)
    ensures data.None? ==> r == []
    ensures data.Some? ==> forall n :: n in r <==> exists g :: g in data.value && g.status == "submitted" && g.packetNo == n
    ensures data.Some? ==> |r| <= |data.value|
    ensures data.Some? ==> var kept := Filter(IsSubmitted, data.value);
      |r| == |kept| && forall i :: 0 <= i < |r| ==> r[i] == kept[i].packetNo
  {
    if data.None? then []
    else
      var kept := Filter(IsSubmitted, data.value);
      var r := seq(|kept|, i requires 0 <= i < |kept| => kept[i].packetNo);
      assert forall n :: n in r ==> exists g :: g in kept && g.packetNo == n by {
        forall n | n in r ensures exists g :: g in kept && g.packetNo == n {
          var i :| 0 <= i < |r| && r[i] == n;
          assert kept[i] in kept;
        }
      }
      assert forall g :: g in kept ==> g.packetNo in r by {
        forall g | g in kept ensures g.packetNo in r {
          var i :| 0 <= i < |kept| && kept[i] == g;
          assert r[i] == g.packetNo;
        }
      }
      r
  }

  /** A packet whose scanning is still `assigned` is never offered. */
  lemma UnsubmittedNotOffered(rows: seq<GalaxyRow>, n: string)
    requires forall g :: g in rows && g.packetNo == n ==> g.status != "submitted"
    ensures n !in SubmittedPackets(Some(rows))
  {
  }

  function AssignCheck(d: AssignData): (r: Option<Problem>)
    ensures r.None? <==> d.packetNo != "" && d.plannername != "" && d.assignDate != ""
  {
    if d.packetNo == "" || d.plannername == "" || d.assignDate == "" then Some(MissingFields) else None
  }

  function SubmitCheck(d: SubmitData): (r: Option<Problem>)
    ensures r.None? <==> d.packetNo != "" && d.plannername != "" && d.csvFile.Some?
  {
    if d.packetNo == "" || d.plannername == "" || d.csvFile.None? then Some(MissingFields) else None
  }

  /** A value shown in a number column, as JavaScript holds it. */
  datatype Cell = Missing | Num(n: real) | Text(s: string)

  /** JavaScript truthiness of a cell (`NaN` is not representable here). */
  predicate Truthy(c: Cell) {
    match c
    case Missing => false
    case Num(n) => n != 0.0
    case Text(s) => s != ""
  }

  /** `formatNumber`: "-" for any falsy value, otherwise the value parsed and
      printed with two decimals by `fixed2` (`None` is `NaN`). */
  function FormatNumber(num: Numerics, fixed2: Option<real> -> string, c: Cell): (r: string)
    ensures !Truthy(c) ==> r == "-"
    ensures c.Num? && c.n != 0.0 ==> r == fixed2(Some(c.n))
    ensures c.Text? && c.s != "" ==> r == fixed2(num.parseFloat(c.s))
  {
    match c
    case Missing => "-"
    case Num(n) => if n == 0.0 then "-" else fixed2(Some(n))
    case Text(s) => if s == "" then "-" else fixed2(num.parseFloat(s))
  }

  /** A dash appears exactly for falsy values, provided the printer itself
      never prints a lone dash. */
  lemma FormatNumberDashIffFalsy(num: Numerics, fixed2: Option<real> -> string, c: Cell)
    requires forall x :: fixed2(x) != "-"
    ensures FormatNumber(num, fixed2, c) == "-" <==> !Truthy(c)
  {
  }

  datatype Badge = Badge(caption: string, color: string)

  /** `getStatusBadge`: the four known statuses, and "pending"'s badge for
      any other text. */
  function StatusBadge(status: string): (r: Badge)
    ensures status == "completed" ==> r == Badge("Completed", "bg-green-500")
    ensures status == "in_progress" ==> r == Badge("In Progress", "bg-blue-500")
    ensures status == "on_hold" ==> r == Badge("On Hold", "bg-yellow-500")
    ensures status !in {"completed", "in_progress", "on_hold"} ==> r == Badge("Pending", "bg-gray-500")
  {
    if status == "completed" then Badge("Completed", "bg-green-500")
    else if status == "in_progress" then Badge("In Progress", "bg-blue-500")
    else if status == "on_hold" then Badge("On Hold", "bg-yellow-500")
    else Badge("Pending", "bg-gray-500")
  }

  /** Distinct known statuses get distinct labels; every label is one of the
      four. */
  lemma StatusBadgeLabels(a: string, b: string)
    requires a in {"completed", "in_progress", "on_hold", "pending"}
    requires b in {"completed", "in_progress", "on_hold", "pending"}
    requires a != b
    ensures StatusBadge(a).caption != StatusBadge(b).caption
    ensures StatusBadge(a).caption in {"Completed", "In Progress", "On Hold", "Pending"}
  {
  }

  class PlanningScreen {
    var assignData: AssignData
    var submitData: SubmitData
    var planningEntries: seq<PlanningEntry>
    var availablePackets: seq<string>
    var error: Option<string>
    var notice: Notice<Problem>

    constructor ()
      ensures assignData == EmptyAssign && submitData == EmptySubmit
      ensures planningEntries == [] && availablePackets == [] && error == None && notice == Silent
    {
      assignData := EmptyAssign;
      submitData := EmptySubmit;
      planningEntries := [];
      availablePackets := [];
      error := None;
      notice := Silent;
    }

    /** `data` is `None` when the payload's `data` field is not an array. A
        failure shows a fixed text, whatever the server said. */
    method FetchAvailablePackets(reply: Outcome<Option<seq<GalaxyRow>>>)
      modifies this`availablePackets, this`notice
      ensures availablePackets == if reply.Ok? then SubmittedPackets(reply.payload) else old(availablePackets)
      ensures notice == if reply.Failed? then Refused(RequestFailed(PacketsUnavailable)) else old(notice)
    {
      match reply
      case Ok(data) => availablePackets := SubmittedPackets(data);
      case Failed(_) => notice := Refused(RequestFailed(PacketsUnavailable));
    }

    method FetchPlanningData(reply: Outcome<seq<PlanningEntry>>)
      modifies this`planningEntries, this`error
      ensures planningEntries == if reply.Ok? then reply.payload else old(planningEntries)
      ensures error == if reply.Ok? then None else Some(reply.message)
    {
      match reply
      case Ok(rows) => planningEntries := rows; error := None;
      case Failed(msg) => error := Some(msg);
    }

    /** The assigned-planner lookup that runs when the submit packet changes:
        a non-empty planner name from the server replaces the form's. */
    method LoadAssignedPlanner(reply: Outcome<string>)
      modifies this`submitData
      ensures if old(submitData).packetNo != "" && reply.Ok? && reply.payload != ""
              then submitData == old(submitData).(plannername := reply.payload)
              else submitData == old(submitData)
    {
      if submitData.packetNo != "" && reply.Ok? && reply.payload != "" {
        submitData := submitData.(plannername := reply.payload);
      }
    }

    method EditAssign(d: AssignData)
      modifies this`assignData
      ensures assignData == d
    {
      assignData := d;
    }

    method EditSubmit(d: SubmitData)
      modifies this`submitData
      ensures submitData == d
    {
      submitData := d;
    }

    /** On success the submit form takes the assigned packet and planner (the
        chosen file is kept), the assign form is emptied, and both lists are
        fetched again. */
    method HandleAssign(reply: Outcome<()>) returns (reloads: set<Source>)
      modifies this`assignData, this`submitData, this`notice
      ensures var d := old(assignData);
        if AssignCheck(d).Some? then
          assignData == d && submitData == old(submitData) && notice == Refused(MissingFields) && reloads == {}
        else if reply.Failed? then
          assignData == d && submitData == old(submitData) && notice == Refused(RequestFailed(reply.message)) && reloads == {}
        else
          submitData == old(submitData).(packetNo := d.packetNo, plannername := d.plannername) &&
          assignData == EmptyAssign && notice == Confirmed && reloads == {AvailableList, PlanningTable}
    {
      reloads := {};
      var d := assignData;
      if AssignCheck(d).Some? {
        notice := Refused(MissingFields);
        return;
      }
      if reply.Failed? {
        notice := Refused(RequestFailed(reply.message));
        return;
      }
      notice := Confirmed;
      submitData := submitData.(packetNo := d.packetNo, plannername := d.plannername);
      assignData := EmptyAssign;
      reloads := {AvailableList, PlanningTable};
    }

    /** On success the submit form is emptied and only the planning table is
        fetched again. */
    method HandleSubmit(reply: Outcome<()>) returns (reloads: set<Source>)
      modifies this`submitData, this`notice
      ensures var d := old(submitData);
        if SubmitCheck(d).Some? then
          submitData == d && notice == Refused(MissingFields) && reloads == {}
        else if reply.Failed? then
          submitData == d && notice == Refused(RequestFailed(reply.message)) && reloads == {}
        else
          submitData == EmptySubmit && notice == Confirmed && reloads == {PlanningTable}
    {
      reloads := {};
      if SubmitCheck(submitData).Some? {
        notice := Refused(MissingFields);
        return;
      }
      if reply.Failed? {
        notice := Refused(RequestFailed(reply.message));
        return;
      }
      notice := Confirmed;
      submitData := EmptySubmit;
      reloads := {PlanningTable};
    }
  }
}
