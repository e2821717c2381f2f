/** The galaxy-scanning stage (`Galaxyscaningform.tsx`): packets are assigned
    to a party and later submitted. Unlike the other stages, this screen keeps
    its own list of the packets it has handled this session and derives both
    dropdowns from it. */
module GalaxyScanning {
  import opened Common
  import opened IsoDates
  import opened Foreign

  datatype Status = Assigned | Submitted

  /** One row of the session's local list. */
  datatype AssignedPacket = AssignedPacket(
    packetNo: string, weight: string, partyName: string, assignDate: string,
    status: Status, submitDate: Option<string>)

  datatype AssignData = AssignData(packetNo: string, weight: string, partyName: string, assignDate: string)

  datatype SubmitData = SubmitData(
    packetNo: string, partyName: string, weight: string, assignDate: string, submitDate: string)

  /** The list a handler asks to be fetched again: the effect on
      `assignedPackets` re-runs the fetch of the assign dropdown. */
  datatype Source = AvailableList

  /** The text the fetch of the assign dropdown puts before the error's message. */
  const FetchPrefix := "Failed to fetch available packets: "

  /** The text a failed assign request puts before the error's message. */
  const AssignPrefix := "Failed to assign galaxy scanning: "

  /** The text a failed submit request puts before the error's message. */
  const SubmitPrefix := "Failed to submit galaxy scanning: "

  const EmptyAssign := AssignData("", "", "", "")
  const EmptySubmit := SubmitData("", "", "", "", "")

  /** Why an action did not go through. */
  datatype Problem =
    | MissingFields
    | InvalidWeight
    | FutureDate
    | NoToken
    | RequestFailed(message: string)

  /** `parseFloat(weight) <= 0`; a `NaN` weight compares false and passes. */
  predicate WeightRejected(num: Numerics, weight: string) {
    match num.parseFloat(weight)
    case None => false
    case Some(v) => v <= 0.0
  }

  /** The assign handler's checks, in the order it runs them; the first that
      fails is reported. */
  function AssignCheck(d: AssignData, today: string, token: string, num: Numerics): (r: Option<Problem>)
    ensures r == None <==>
      d.packetNo != "" && d.weight != "" && d.partyName != "" && d.assignDate != "" &&
      !WeightRejected(num, d.weight) && !After(d.assignDate, today) && token != ""
    ensures r == Some(MissingFields) <==>
      d.packetNo == "" || d.weight == "" || d.partyName == "" || d.assignDate == ""
  {
    if d.packetNo == "" || d.weight == "" || d.partyName == "" || d.assignDate == "" then Some(MissingFields)
    else if WeightRejected(num, d.weight) then Some(InvalidWeight)
    else if After(d.assignDate, today) then Some(FutureDate)
    else if token == "" then Some(NoToken)
    else None
  }

  /** An accepted assign date is never chronologically later than today. */
  lemma AcceptedAssignNotFuture(d: AssignData, today: string, token: string, num: Numerics)
    requires AssignCheck(d, today, token, num) == None
    requires IsIsoDate(d.assignDate) && IsIsoDate(today)
    ensures !Earlier(today, d.assignDate)
  {
    IsoOrderIsChronological(today, d.assignDate);
  }

  /** The submit handler's checks: packet and date first, then the token. */
  function SubmitCheck(d: SubmitData, token: string): (r: Option<Problem>)
    ensures r == None <==> d.packetNo != "" && d.submitDate != "" && token != ""
    ensures r == Some(MissingFields) <==> d.packetNo == "" || d.submitDate == ""
  {
    if d.packetNo == "" || d.submitDate == "" then Some(MissingFields)
    else if token == "" then Some(NoToken)
    else None
  }

  /** The packet numbers the local list already mentions, in any status. */
  function Numbers(ps: seq<AssignedPacket>): (r: set<string>)
    ensures forall n :: n in r <==> exists i :: 0 <= i < |ps| && ps[i].packetNo == n
  {
    set i | 0 <= i < |ps| :: ps[i].packetNo
  }

  /** The assign dropdown: nung packets not yet in the local list. */
  function AvailableFrom(nung: seq<string>, ps: seq<AssignedPacket>): (r: seq<string>)
    ensures forall n :: n in r <==> n in nung && n !in Numbers(ps)
  {
    Filter((n: string) => n !in Numbers(ps), nung)
  }

  /** The submit dropdown: rows still in status `assigned`. */
  function ForSubmit(ps: seq<AssignedPacket>): (r: seq<AssignedPacket>)
    ensures forall p :: p in r <==> p in ps && p.status == Assigned
  {
    Filter((p: AssignedPacket) => p.status == Assigned, ps)
  }

  /** The row a successful submit writes in place of `p`. */
  function MarkSubmitted(p: AssignedPacket, packetNo: string, date: string): (r: AssignedPacket)
    ensures r.packetNo == p.packetNo && r.weight == p.weight && r.partyName == p.partyName &&
            r.assignDate == p.assignDate
    ensures p.packetNo == packetNo ==> r.status == Submitted && r.submitDate == Some(date)
    ensures p.packetNo != packetNo ==> r == p
  {
    if p.packetNo == packetNo then p.(status := Submitted, submitDate := Some(date)) else p
  }

  /** What every row satisfies: it was entered with all fields filled, and it
      has a submit date exactly when it has been submitted. */
  ghost predicate RowValid(p: AssignedPacket) {
    p.packetNo != "" && p.weight != "" && p.partyName != "" && p.assignDate != "" &&
    (p.status == Submitted <==> p.submitDate.Some?) &&
    (p.submitDate.Some? ==> p.submitDate.value != "")
  }

  /** The list after a successful submit of `packetNo`: rows with other
      numbers are untouched, rows with that number keep their details and
      become `submitted` on `date`. */
  function SubmitAll(ps: seq<AssignedPacket>, packetNo: string, date: string): (r: seq<AssignedPacket>)
    ensures |r| == |ps|
    ensures forall i :: 0 <= i < |ps| && ps[i].packetNo != packetNo ==> r[i] == ps[i]
    ensures forall i :: 0 <= i < |ps| && ps[i].packetNo == packetNo ==>
      r[i].status == Submitted && r[i].submitDate == Some(date) &&
      r[i].packetNo == ps[i].packetNo && r[i].weight == ps[i].weight &&
      r[i].partyName == ps[i].partyName && r[i].assignDate == ps[i].assignDate
  {
    seq(|ps|, i requires 0 <= i < |ps| => MarkSubmitted(ps[i], packetNo, date))
  }

  /** Once a packet number has been submitted, no row with that number is
      offered for submission again. */
  lemma SubmittedLeavesDropdown(ps: seq<AssignedPacket>, packetNo: string, date: string)
    ensures forall p :: p in ForSubmit(SubmitAll(ps, packetNo, date)) ==> p.packetNo != packetNo
  {
    var qs := SubmitAll(ps, packetNo, date);
    forall p | p in ForSubmit(qs) ensures p.packetNo != packetNo {
      var i :| 0 <= i < |qs| && qs[i] == p;
    }
  }

  /** A packet that has been assigned is never offered for assignment again,
      whatever the server lists, even after it has been submitted. */
  lemma {:induction false} HandledNeverAvailable(nung: seq<string>, ps: seq<AssignedPacket>, k: nat)
    requires k < |ps|
    ensures ps[k].packetNo !in AvailableFrom(nung, ps)
  {
    assert ps[k].packetNo in Numbers(ps);
  }

  class GalaxyScanningForm {
    const num: Numerics
    var authToken: string
    var assignData: AssignData
    var submitData: SubmitData
    var availablePacketNumbers: seq<string>
    var assignedPackets: seq<AssignedPacket>
    var notice: Notice<Problem>

    ghost predicate Valid()
      reads this
    {
      forall i :: 0 <= i < |assignedPackets| ==> RowValid(assignedPackets[i])
    }

    /** Mounting the screen: the token is taken from storage when it is a
        non-empty string, otherwise the screen complains. */
    constructor (num: Numerics, storedToken: Option<string>)
      ensures Valid()
      ensures this.num == num
      ensures authToken == (if storedToken.Some? then storedToken.value else "")
      ensures assignData == EmptyAssign && submitData == EmptySubmit
      ensures availablePacketNumbers == [] && assignedPackets == []
      ensures notice == if authToken == "" then Refused(NoToken) else Silent
    {
      this.num := num;
      authToken := if storedToken.Some? then storedToken.value else "";
      assignData := EmptyAssign;
      submitData := EmptySubmit;
      availablePacketNumbers := [];
      assignedPackets := [];
      notice := if storedToken.Some? && storedToken.value != "" then Silent else Refused(NoToken);
    }

    /** Refreshing the assign dropdown from the nung-separation list. */
    method FetchAvailablePackets(reply: Outcome<seq<string>>)
      modifies this`availablePacketNumbers, this`notice
      ensures availablePacketNumbers ==
        if authToken != "" && reply.Ok? then AvailableFrom(reply.payload, assignedPackets)
        else old(availablePacketNumbers)
      ensures notice == if authToken == "" then Refused(NoToken)
                        else if reply.Failed? then Refused(RequestFailed(FetchPrefix + reply.message))
                        else old(notice)
    {
      if authToken == "" {
        notice := Refused(NoToken);
        return;
      }
      match reply
      case Ok(nung) =>
        availablePacketNumbers := AvailableFrom(nung, assignedPackets);
      case Failed(msg) =>
        notice := Refused(RequestFailed(FetchPrefix + msg));
    }

    /** Assigning the packet in the assign form. On success the row is appended
        with status `assigned`, the assign form is cleared and the submit form
        is prefilled with the same packet and today's date, and the changed
        local list makes the screen fetch its assign dropdown again. */
    method HandleAssign(today: string, reply: Outcome<()>) returns (reloads: set<Source>)
      requires Valid()
      modifies this
      ensures Valid()
      ensures authToken == old(authToken) && availablePacketNumbers == old(availablePacketNumbers)
      ensures var d := old(assignData);
        match AssignCheck(d, today, authToken, num)
        case Some(p) =>
          assignedPackets == old(assignedPackets) && assignData == d &&
          submitData == old(submitData) && notice == Refused(p) && reloads == {}
        case None =>
          if reply.Failed? then
            assignedPackets == old(assignedPackets) && assignData == d &&
            submitData == old(submitData) && notice == Refused(RequestFailed(AssignPrefix + reply.message)) &&
            reloads == {}
          else
            assignedPackets == old(assignedPackets) +
              [AssignedPacket(d.packetNo, d.weight, d.partyName, d.assignDate, Assigned, None)] &&
            assignData == EmptyAssign &&
            submitData == SubmitData(d.packetNo, d.partyName, d.weight, d.assignDate, today) &&
            notice == Confirmed && reloads == {AvailableList}
    {
      reloads := {};
      var d := assignData;
      var check := AssignCheck(d, today, authToken, num);
      if check.Some? {
        notice := Refused(check.value);
        return;
      }
      if reply.Failed? {
        notice := Refused(RequestFailed(AssignPrefix + reply.message));
        return;
      }
      assignedPackets := assignedPackets + [AssignedPacket(d.packetNo, d.weight, d.partyName, d.assignDate, Assigned, None)];
      notice := Confirmed;
      assignData := EmptyAssign;
      submitData := SubmitData(d.packetNo, d.partyName, d.weight, d.assignDate, today);
      reloads := {AvailableList};
    }

    /** Submitting the packet in the submit form: every row with that number
        becomes `submitted` with the form's date, and the rebuilt local list
        makes the screen fetch its assign dropdown again; nothing else changes. */
    method HandleSubmit(reply: Outcome<()>) returns (reloads: set<Source>)
      requires Valid()
      modifies this
      ensures Valid()
      ensures authToken == old(authToken) && availablePacketNumbers == old(availablePacketNumbers)
      ensures assignData == old(assignData)
      ensures var d := old(submitData);
        match SubmitCheck(d, authToken)
        case Some(p) =>
          assignedPackets == old(assignedPackets) && submitData == d && notice == Refused(p) &&
          reloads == {}
        case None =>
          if reply.Failed? then
            assignedPackets == old(assignedPackets) && submitData == d &&
            notice == Refused(RequestFailed(SubmitPrefix + reply.message)) && reloads == {}
          else
            assignedPackets == SubmitAll(old(assignedPackets), d.packetNo, d.submitDate) &&
            submitData == EmptySubmit && notice == Confirmed && reloads == {AvailableList}
    {
      reloads := {};
      var d := submitData;
      var check := SubmitCheck(d, authToken);
      if check.Some? {
        notice := Refused(check.value);
        return;
      }
      if reply.Failed? {
        notice := Refused(RequestFailed(SubmitPrefix + reply.message));
        return;
      }
      assignedPackets := SubmitAll(assignedPackets, d.packetNo, d.submitDate);
      notice := Confirmed;
      submitData := EmptySubmit;
      reloads := {AvailableList};
    }

    /** Choosing a packet in the submit dropdown: when the local list has a
        row with that number (in any status) its details and today's date
        fill the submit form; otherwise the form is left as it was. */
    method SelectForSubmit(value: string, today: string)
      modifies this`submitData
      ensures match Find((p: AssignedPacket) => p.packetNo == value, assignedPackets)
        case Some(p) => submitData == SubmitData(value, p.partyName, p.weight, p.assignDate, today)
        case None => submitData == old(submitData)
    {
      var found := Find((p: AssignedPacket) => p.packetNo == value, assignedPackets);
      if found.Some? {
        var p := found.value;
        submitData := SubmitData(value, p.partyName, p.weight, p.assignDate, today);
      }
    }

    /** `getAssignedPacketsForSubmit`. */
    function AssignedPacketsForSubmit(): (r: seq<AssignedPacket>)
      reads this
      ensures forall p :: p in r <==> p in assignedPackets && p.status == Assigned
      ensures |r| <= |assignedPackets|
    {
      ForSubmit(assignedPackets)
    }

    method EditAssign(d: AssignData)
      modifies this`assignData
      ensures assignData == d
    {
      assignData := d;
    }

    method EditSubmit(d: SubmitData)
      modifies this`submitData
      ensures submitData == d
    {
      submitData := d;
    }
  }
}
