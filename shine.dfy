/** The shine stage (`ShineForm.tsx`): one list of not-yet-submitted planning
    packets feeds both dropdowns, fields are looked up from the planning
    entries, and a form is only reset when the server says `success`. */
module Shine {
  import opened Common
  import opened Foreign

  datatype PlanningRow = PlanningRow(packetNo: string, kapanNo: string, plannerName: string, kapanWt: Option<real>, status: string)

  /** A row of the shine table after mapping from the server. */
  datatype ShineEntry = ShineEntry(id: int, packetNo: string, kapanNo: string, partyName: string, weight: Option<real>, status: string)

  datatype AssignForm = AssignForm(packetNo: string, kapanNo: string, partyName: string, weight: string, assignDate: string)

  datatype SubmitForm = SubmitForm(packetNo: string, kapanNo: string, partyName: string, weight: string, submissionDate: string)

  const EmptyAssign := AssignForm("", "", "", "", "")
  const EmptySubmit := SubmitForm("", "", "", "", "")

  /** The JSON body of an assign or submit reply. */
  datatype Reply = Reply(success: bool, message: string)

  datatype Problem = Rejected(message: string) | RequestFailed

  /** The texts shown when the reply says `success` is false and carries no
      message of its own (`data.message || ...`). */
  const AssignFailed := "Assignment failed"
  const SubmitFailed := "Submission failed"

  datatype Source = ShineTable | AvailableList

  /** The test of the dropdowns' filter. */
  predicate Unsubmitted(e: PlanningRow) {
    e.status != "submitted"
  }

  /** Both dropdowns: the packets of planning rows whose status is not
      `'submitted'`, in order; a payload that is not an array gives none. */
  function AvailableFrom(data: Option<seq<PlanningRow>>): (r: seq<string>)
    ensures data.None? ==> r == []
    ensures data.Some? ==> forall n :: n in r <==> exists e :: e in data.value && e.status != "submitted" && e.packetNo == n
    ensures data.Some? ==> var kept := Filter(Unsubmitted, data.value);
      |r| == |kept| && forall i :: 0 <= i < |r| ==> r[i] == kept[i].packetNo
  {
    if data.None? then []
    else
      var kept := Filter(Unsubmitted, data.value);
      var r := seq(|kept|, i requires 0 <= i < |kept| => kept[i].packetNo);
      assert forall n :: n in r ==> exists e :: e in kept && e.packetNo == n by {
        forall n | n in r ensures exists e :: e in kept && e.packetNo == n {
          var i :| 0 <= i < |r| && r[i] == n;
          assert kept[i] in kept;
        }
      }
      assert forall e :: e in kept ==> e.packetNo in r by {
        forall e | e in kept ensures e.packetNo in r {
          var i :| 0 <= i < |kept| && kept[i] == e;
          assert r[i] == e.packetNo;
        }
      }
      r
  }

  function WeightText(num: Numerics, w: Option<real>): string {
    if w.Some? then num.show(w.value) else ""
  }

  function Lookup(data: Option<seq<PlanningRow>>, packetNo: string): Option<PlanningRow> {
    if data.None? then None else Find((e: PlanningRow) => e.packetNo == packetNo, data.value)
  }

  /** What the auto-fill writes into kapan/party/weight: the planning row's
      values when the packet is found, blanks when it is not. */
  datatype Fill = Fill(kapanNo: string, partyName: string, weight: string)

  function FillFor(num: Numerics, data: Option<seq<PlanningRow>>, packetNo: string): (r: Fill)
    ensures Lookup(data, packetNo).None? ==> r == Fill("", "", "")
    ensures Lookup(data, packetNo).Some? ==>
      var e := Lookup(data, packetNo).value;
      r.kapanNo == e.kapanNo && r.partyName == e.plannerName && r.weight == WeightText(num, e.kapanWt)
  {
    match Lookup(data, packetNo)
    case Some(e) => Fill(e.kapanNo, e.plannerName, WeightText(num, e.kapanWt))
    case None => Fill("", "", "")
  }

  /** The fill comes from the first planning row with that packet number,
      whatever that row's status, so a packet whose planning row is already
      `submitted` still fills the form. */
  lemma {:induction false} FillFromFirstRow(num: Numerics, rows: seq<PlanningRow>, k: nat)
    requires k < |rows| && forall j :: 0 <= j < k ==> rows[j].packetNo != rows[k].packetNo
    ensures FillFor(num, Some(rows), rows[k].packetNo) ==
      Fill(rows[k].kapanNo, rows[k].plannerName, WeightText(num, rows[k].kapanWt))
  {
    var f := (e: PlanningRow) => e.packetNo == rows[k].packetNo;
    var found := Find(f, rows);
    assert found.Some?;
    var i :| 0 <= i < |rows| && rows[i] == found.value && f(rows[i]) && forall j :: 0 <= j < i ==> !f(rows[j]);
    assert f(rows[k]) && rows[i].packetNo == rows[k].packetNo;
  }

  class ShineScreen {
    const num: Numerics
    var assignForm: AssignForm
    var submitForm: SubmitForm
    var shineEntries: seq<ShineEntry>
    var availablePackets: seq<string>
    var notice: Notice<Problem>

    constructor (num: Numerics)
      ensures this.num == num
      ensures assignForm == EmptyAssign && submitForm == EmptySubmit
      ensures shineEntries == [] && availablePackets == [] && notice == Silent
    {
      this.num := num;
      assignForm := EmptyAssign;
      submitForm := EmptySubmit;
      shineEntries := [];
      availablePackets := [];
      notice := Silent;
    }

    /** A failure is only logged; the list is kept. */
    method FetchAvailablePackets(reply: Outcome<Option<seq<PlanningRow>>>)
      modifies this`availablePackets
      ensures availablePackets == if reply.Ok? then AvailableFrom(reply.payload) else old(availablePackets)
    {
      if reply.Ok? {
        availablePackets := AvailableFrom(reply.payload);
      }
    }

    method FetchShineData(reply: Outcome<seq<ShineEntry>>)
      modifies this`shineEntries, this`notice
      ensures reply.Failed? ==> shineEntries == old(shineEntries) && notice == Refused(RequestFailed)
      ensures reply.Ok? ==> notice == old(notice) && |shineEntries| == |reply.payload|
      ensures reply.Ok? ==> forall i :: 0 <= i < |shineEntries| ==>
        shineEntries[i] == reply.payload[i].(status := StageStatus(reply.payload[i].status))
    {
      match reply
      case Failed(_) =>
        notice := Refused(RequestFailed);
      case Ok(rows) =>
        shineEntries := seq(|rows|, i requires 0 <= i < |rows| => rows[i].(status := StageStatus(rows[i].status)));
    }

    /** The assign form's lookup effect. A packet number that is empty or all
        white space (`!packetNo.trim()`) does nothing;
        so does a lookup whose response is not ok. Otherwise the fields are
        filled from the planning row or blanked. */
    method AutoFillAssign(reply: Outcome<Option<seq<PlanningRow>>>)
      modifies this`assignForm
      ensures var f := old(assignForm);
        if AllWhitespace(f.packetNo) || reply.Failed? then assignForm == f
        else
          var fill := FillFor(num, reply.payload, f.packetNo);
          assignForm == f.(kapanNo := fill.kapanNo, partyName := fill.partyName, weight := fill.weight)
    {
      TrimEmptyIffBlank(assignForm.packetNo);
      if Trim(assignForm.packetNo) == "" {
        return;
      }
      if reply.Ok? {
        var fill := FillFor(num, reply.payload, assignForm.packetNo);
        assignForm := assignForm.(kapanNo := fill.kapanNo, partyName := fill.partyName, weight := fill.weight);
      }
    }

    /** The submit form's lookup effect, the same rule. */
    method AutoFillSubmit(reply: Outcome<Option<seq<PlanningRow>>>)
      modifies this`submitForm
      ensures var f := old(submitForm);
        if AllWhitespace(f.packetNo) || reply.Failed? then submitForm == f
        else
          var fill := FillFor(num, reply.payload, f.packetNo);
          submitForm == f.(kapanNo := fill.kapanNo, partyName := fill.partyName, weight := fill.weight)
    {
      TrimEmptyIffBlank(submitForm.packetNo);
      if Trim(submitForm.packetNo) == "" {
        return;
      }
      if reply.Ok? {
        var fill := FillFor(num, reply.payload, submitForm.packetNo);
        submitForm := submitForm.(kapanNo := fill.kapanNo, partyName := fill.partyName, weight := fill.weight);
      }
    }

    method EditAssign(f: AssignForm)
      modifies this`assignForm
      ensures assignForm == f
    {
      assignForm := f;
    }

    method EditSubmit(f: SubmitForm)
      modifies this`submitForm
      ensures submitForm == f
    {
      submitForm := f;
    }

    /** The form is reset, and both lists fetched again, only when the reply
        body says `success`; any other reply keeps what was typed. */
    method HandleAssign(reply: Outcome<Reply>) returns (reloads: set<Source>)
      modifies this`assignForm, this`notice
      ensures reply.Ok? && reply.payload.success ==>
        assignForm == EmptyAssign && reloads == {ShineTable, AvailableList} && notice == Confirmed
      ensures reply.Ok? && !reply.payload.success ==>
        assignForm == old(assignForm) && reloads == {} && notice == Refused(Rejected(MessageOr(reply.payload.message, AssignFailed)))
      ensures reply.Failed? ==> assignForm == old(assignForm) && reloads == {} && notice == Refused(RequestFailed)
    {
      reloads := {};
      match reply
      case Failed(_) =>
        notice := Refused(RequestFailed);
      case Ok(body) =>
        if body.success {
          notice := Confirmed;
          reloads := {ShineTable, AvailableList};
          assignForm := EmptyAssign;
        } else {
          notice := Refused(Rejected(MessageOr(body.message, AssignFailed)));
        }
    }

    method HandleSubmit(reply: Outcome<Reply>) returns (reloads: set<Source>)
      modifies this`submitForm, this`notice
      ensures reply.Ok? && reply.payload.success ==>
        submitForm == EmptySubmit && reloads == {ShineTable, AvailableList} && notice == Confirmed
      ensures reply.Ok? && !reply.payload.success ==>
        submitForm == old(submitForm) && reloads == {} && notice == Refused(Rejected(MessageOr(reply.payload.message, SubmitFailed)))
      ensures reply.Failed? ==> submitForm == old(submitForm) && reloads == {} && notice == Refused(RequestFailed)
    {
      reloads := {};
      match reply
      case Failed(_) =>
        notice := Refused(RequestFailed);
      case Ok(body) =>
        if body.success {
          notice := Confirmed;
          reloads := {ShineTable, AvailableList};
          submitForm := EmptySubmit;
        } else {
          notice := Refused(Rejected(MessageOr(body.message, SubmitFailed)));
        }
    }
  }
}
