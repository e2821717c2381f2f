/** The polishing stage (`ProcessingForm.tsx`): two dropdowns loaded from the
    server, fields filled from the chosen packet, and no client-side checks
    beyond disabling the buttons while no packet is chosen. */
module Polishing {
  import opened Common
  import opened Foreign

  /** A packet as either endpoint returns it; `status` is only meaningful for
      the entries list. */
  datatype Packet = Packet(packetNo: string, kapanNo: string, partyName: string, weight: Option<real>, status: string)

  datatype AssignForm = AssignForm(packetNo: string, kapanNo: string, partyName: string, weight: string, assignDate: string)

  datatype SubmitForm = SubmitForm(
    packetNo: string, kapanNo: string, partyName: string, weight: string,
    taiyarWeight: string, submissionDate: string)

  function FreshAssign(today: string): AssignForm {
    AssignForm("", "", "", "", today)
  }

  function FreshSubmit(today: string): SubmitForm {
    SubmitForm("", "", "", "", "", today)
  }

  datatype Problem = RequestFailed(message: string)

  /** The lists a handler asks the screen to fetch again. */
  datatype Source = EligibleList | AssignedList

  /** The submit dropdown: entries whose status is exactly `"assigned"`. */
  function AssignedOnly(entries: seq<Packet>): (r: seq<Packet>)
    ensures forall p :: p in r <==> p in entries && p.status == "assigned"
    ensures |r| <= |entries|
  {
    Filter((p: Packet) => p.status == "assigned", entries)
  }

  /** Filtering is exact: everything kept has the status, nothing with the
      status is dropped, and running it again changes nothing. */
  lemma {:induction false} AssignedOnlyIdempotent(entries: seq<Packet>)
    ensures AssignedOnly(AssignedOnly(entries)) == AssignedOnly(entries)
  {
    var r := AssignedOnly(entries);
    assert forall i :: 0 <= i < |r| ==> r[i].status == "assigned" by {
      forall i | 0 <= i < |r| ensures r[i].status == "assigned" { assert r[i] in r; }
    }
    FilterKeepsAll((p: Packet) => p.status == "assigned", r);
  }

  function WeightText(num: Numerics, w: Option<real>): string {
    if w.Some? then num.show(w.value) else ""
  }

  function PacketFor(list: seq<Packet>, packetNo: string): Option<Packet> {
    Find((p: Packet) => p.packetNo == packetNo, list)
  }

  class PolishingScreen {
    const num: Numerics
    var assignForm: AssignForm
    var submitForm: SubmitForm
    var eligiblePackets: seq<Packet>
    var assignedPackets: seq<Packet>
    var notice: Notice<Problem>

    ghost predicate Valid()
      reads this
    {
      forall i :: 0 <= i < |assignedPackets| ==> assignedPackets[i].status == "assigned"
    }

    constructor (num: Numerics, today: string)
      ensures Valid() && this.num == num
      ensures assignForm == FreshAssign(today) && submitForm == FreshSubmit(today)
      ensures eligiblePackets == [] && assignedPackets == [] && notice == Silent
    {
      this.num := num;
      assignForm := FreshAssign(today);
      submitForm := FreshSubmit(today);
      eligiblePackets := [];
      assignedPackets := [];
      notice := Silent;
    }

    method FetchEligiblePackets(reply: Outcome<seq<Packet>>)
      modifies this`eligiblePackets, this`notice
      ensures eligiblePackets == if reply.Ok? then reply.payload else old(eligiblePackets)
      ensures notice == if reply.Failed? then Refused(RequestFailed(reply.message)) else old(notice)
    {
      match reply
      case Ok(list) => eligiblePackets := list;
      case Failed(msg) => notice := Refused(RequestFailed(msg));
    }

    method FetchAssignedPackets(reply: Outcome<seq<Packet>>)
      modifies this`assignedPackets, this`notice
      ensures Valid()
      ensures assignedPackets == if reply.Ok? then AssignedOnly(reply.payload) else old(assignedPackets)
      ensures notice == if reply.Failed? then Refused(RequestFailed(reply.message)) else old(notice)
      requires Valid()
    {
      match reply
      case Ok(list) =>
        assignedPackets := AssignedOnly(list);
        forall i | 0 <= i < |assignedPackets| ensures assignedPackets[i].status == "assigned" {
          assert assignedPackets[i] in assignedPackets;
        }
      case Failed(msg) => notice := Refused(RequestFailed(msg));
    }

    /** The assign form's effect: the chosen packet's kapan, party and weight
        when it is in the eligible list, blanks otherwise. */
    method AutoFillAssign()
      modifies this`assignForm
      ensures var f := old(assignForm);
        match PacketFor(eligiblePackets, f.packetNo)
        case Some(p) => assignForm == f.(kapanNo := p.kapanNo, partyName := p.partyName, weight := WeightText(num, p.weight))
        case None => assignForm == f.(kapanNo := "", partyName := "", weight := "")
      ensures AssignEnabled() == old(AssignEnabled())
    {
      match PacketFor(eligiblePackets, assignForm.packetNo)
      case Some(p) =>
        assignForm := assignForm.(kapanNo := p.kapanNo, partyName := p.partyName, weight := WeightText(num, p.weight));
      case None =>
        assignForm := assignForm.(kapanNo := "", partyName := "", weight := "");
    }

    /** The submit form's effect, the same rule against the assigned list. */
    method AutoFillSubmit()
      modifies this`submitForm
      ensures var f := old(submitForm);
        match PacketFor(assignedPackets, f.packetNo)
        case Some(p) => submitForm == f.(kapanNo := p.kapanNo, partyName := p.partyName, weight := WeightText(num, p.weight))
        case None => submitForm == f.(kapanNo := "", partyName := "", weight := "")
      ensures SubmitEnabled() == old(SubmitEnabled())
    {
      match PacketFor(assignedPackets, submitForm.packetNo)
      case Some(p) =>
        submitForm := submitForm.(kapanNo := p.kapanNo, partyName := p.partyName, weight := WeightText(num, p.weight));
      case None =>
        submitForm := submitForm.(kapanNo := "", partyName := "", weight := "");
    }

    method EditAssign(f: AssignForm)
      modifies this`assignForm
      ensures assignForm == f
      ensures AssignEnabled() <==> f.packetNo != ""
    {
      assignForm := f;
    }

    method EditSubmit(f: SubmitForm)
      modifies this`submitForm
      ensures submitForm == f
      ensures SubmitEnabled() <==> f.packetNo != ""
    {
      submitForm := f;
    }

    /** The assign button is enabled exactly when a packet is chosen. */
    predicate AssignEnabled()
      reads this
    {
      assignForm.packetNo != ""
    }

    /** The submit button is enabled exactly when a packet is chosen. */
    predicate SubmitEnabled()
      reads this
    {
      submitForm.packetNo != ""
    }

    /** The assign handler sends the form as it is. On success the form is
        reset with today's date, so the button is disabled again until a
        packet is chosen, and both lists are fetched again. */
    method HandleAssign(today: string, reply: Outcome<()>) returns (reloads: set<Source>)
      modifies this`assignForm, this`notice
      ensures reply.Failed? ==> assignForm == old(assignForm) && reloads == {} &&
                                notice == Refused(RequestFailed(reply.message))
      ensures reply.Ok? ==> assignForm == FreshAssign(today) && reloads == {EligibleList, AssignedList} &&
                            notice == Confirmed
      ensures reply.Ok? ==> !AssignEnabled()
    {
      if reply.Failed? {
        notice := Refused(RequestFailed(reply.message));
        reloads := {};
        return;
      }
      notice := Confirmed;
      assignForm := FreshAssign(today);
      reloads := {EligibleList, AssignedList};
    }

    /** The submit handler: on success the form is reset, disabling the
        button, and only the assigned list is fetched again. */
    method HandleSubmit(today: string, reply: Outcome<()>) returns (reloads: set<Source>)
      modifies this`submitForm, this`notice
      ensures reply.Failed? ==> submitForm == old(submitForm) && reloads == {} &&
                                notice == Refused(RequestFailed(reply.message))
      ensures reply.Ok? ==> submitForm == FreshSubmit(today) && reloads == {AssignedList} && notice == Confirmed
      ensures reply.Ok? ==> !SubmitEnabled()
    {
      if reply.Failed? {
        notice := Refused(RequestFailed(reply.message));
        reloads := {};
        return;
      }
      notice := Confirmed;
      submitForm := FreshSubmit(today);
      reloads := {AssignedList};
    }
  }
}
