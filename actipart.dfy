/** The acti-part stage (`ActipartForm.tsx`). Packets become eligible for
    assignment when they appear both among the planning entries and among the
    lssoing entries; the submit dropdown is derived from the stage's own
    entries table. Missing text fields from the server are modelled as "". */
module Actipart {
  import opened Common
  import opened IsoDates
  import opened Foreign

  /** A planning entry as the planning endpoint returns it. */
  datatype PlanningEntry = PlanningEntry(
    packetNo: string, kapanNo: string, plannerName: string, kapanWt: Option<real>)

  /** An option of the assign dropdown (`NungKapanData`). */
  datatype NungKapan = NungKapan(
    packetNo: string, kapanNo: string, partyName: string, karigarName: string,
    weight: Option<real>, assignDate: string)

  /** A row of the acti-part entries table after mapping from the server. */
  datatype ShineEntry = ShineEntry(
    id: int, packetNo: string, kapanNo: string, partyName: string, karigarName: string,
    weight: Option<real>, status: string, assignDate: string, submissionDate: Option<string>)

  datatype AssignForm = AssignForm(
    packetNo: string, kapanNo: string, karigarName: string, partyName: string,
    weight: string, assignDate: string)

  datatype SubmitForm = SubmitForm(
    packetNo: string, kapanNo: string, karigarName: string, partyName: string,
    weight: string, submissionDate: string)

  function FreshAssign(today: string): AssignForm {
    AssignForm("", "", "", "", "", today)
  }

  function FreshSubmit(today: string): SubmitForm {
    SubmitForm("", "", "", "", "", today)
  }

  datatype Problem =
    | MissingFields
    | InvalidWeight
    | FutureDate
    | NoWorker
    | BeforeAssignDate
    | NoToken
    | RequestFailed(message: string)

  /** The lists a handler asks the screen to fetch again. */
  datatype Source = EligibleList | EntriesTable

  // ---------------------------------------------------------------------
  // Derived lists
  // ---------------------------------------------------------------------

  /** `planningData.data?.map(..) || []`: a missing list reads as empty. */
  function PlanningList(data: Option<seq<PlanningEntry>>): seq<PlanningEntry> {
    if data.Some? then data.value else []
  }

  function PlanningNumbers(ps: seq<PlanningEntry>): (r: seq<string>)
    ensures |r| == |ps| && forall i :: 0 <= i < |ps| ==> r[i] == ps[i].packetNo
  {
    seq(|ps|, i requires 0 <= i < |ps| => ps[i].packetNo)
  }

  /** The first planning entry for a packet, as `find` returns it. */
  function FirstEntry(ps: seq<PlanningEntry>, packetNo: string): Option<PlanningEntry> {
    Find((e: PlanningEntry) => e.packetNo == packetNo, ps)
  }

  function WeightOrZero(w: Option<real>): real {
    if w.Some? then w.value else 0.0
  }

  /** The dropdown option built for an eligible packet: kapan, planner and
      weight from its first planning entry, each defaulting to ''/''/0. */
  function EligibleOption(ps: seq<PlanningEntry>, packetNo: string): (r: NungKapan)
    ensures r.packetNo == packetNo && r.karigarName == ""
    ensures FirstEntry(ps, packetNo).Some? ==>
      var e := FirstEntry(ps, packetNo).value;
      r.kapanNo == e.kapanNo && r.partyName == e.plannerName && r.weight == Some(WeightOrZero(e.kapanWt))
    ensures FirstEntry(ps, packetNo).None? ==> r.kapanNo == "" && r.partyName == "" && r.weight == Some(0.0)
  {
    match FirstEntry(ps, packetNo)
    case Some(e) => NungKapan(packetNo, e.kapanNo, e.plannerName, "", Some(WeightOrZero(e.kapanWt)), "")
    case None => NungKapan(packetNo, "", "", "", Some(0.0), "")
  }

  /** Some planning entry is for packet `n`. */
  predicate Plans(ps: seq<PlanningEntry>, n: string) {
    exists i :: 0 <= i < |ps| && ps[i].packetNo == n
  }

  /** Some dropdown option is for packet `n`. */
  predicate Offers(r: seq<NungKapan>, n: string) {
    exists i :: 0 <= i < |r| && r[i].packetNo == n
  }

  /** The distinct planning packet numbers, in first-occurrence order, that
      the lssoing list also contains. */
  function CommonPackets(ps: seq<PlanningEntry>, lssoing: seq<string>): (r: seq<string>)
    ensures forall n :: n in r <==> Plans(ps, n) && n in lssoing
    ensures NoDuplicates(r)
  {
    var nos := PlanningNumbers(ps);
    var d := Distinct(nos);
    var r := Filter(InList(lssoing), d);
    assert forall n :: n in nos <==> Plans(ps, n) by {
      forall n | n in nos ensures Plans(ps, n) {
        var i :| 0 <= i < |nos| && nos[i] == n;
      }
    }
    FilterKeepsDistinct(InList(lssoing), d);
    r
  }

  /** `eligiblePackets.has(packet)` as a test. */
  function InList(lssoing: seq<string>): (f: string -> bool)
    ensures forall n :: f(n) <==> n in lssoing
  {
    (n: string) => n in lssoing
  }

  /** The common packets come in planning order: of two packets both lists
      hold, the one whose first planning entry comes first is listed first. */
  lemma CommonPacketsFirstOrder(ps: seq<PlanningEntry>, lssoing: seq<string>, i: nat, j: nat)
    requires i < j < |ps| && forall k :: 0 <= k < j ==> ps[k].packetNo != ps[j].packetNo
    requires ps[i].packetNo in lssoing && ps[j].packetNo in lssoing
    ensures var r := CommonPackets(ps, lssoing);
      exists a, b :: 0 <= a < b < |r| && r[a] == ps[i].packetNo && r[b] == ps[j].packetNo
  {
    var nos := PlanningNumbers(ps);
    assert nos[j] !in nos[..j] by {
      forall k | 0 <= k < j ensures nos[..j][k] != nos[j] { assert nos[..j][k] == ps[k].packetNo; }
    }
    DistinctKeepsFirstOrder(nos, i, j);
    var d := Distinct(nos);
    var a, b :| 0 <= a < b < |d| && d[a] == nos[i] && d[b] == nos[j];
    FilterKeepsOrder(InList(lssoing), d, a, b);
    assert CommonPackets(ps, lssoing) == Filter(InList(lssoing), d);
  }

  /** A filtered list of distinct values has distinct values. */
  lemma {:induction false} FilterKeepsDistinct<T(!new)>(f: T -> bool, s: seq<T>)
    requires NoDuplicates(s)
    ensures NoDuplicates(Filter(f, s))
  {
    if s != [] {
      assert NoDuplicates(s[1..]) by {
        forall i, j | 0 <= i < j < |s[1..]| ensures s[1..][i] != s[1..][j] {
          assert s[1..][i] == s[i + 1] && s[1..][j] == s[j + 1];
        }
      }
      FilterKeepsDistinct(f, s[1..]);
      var t := Filter(f, s[1..]);
      assert s[0] !in s[1..] by {
        forall k | 0 <= k < |s[1..]| ensures s[1..][k] != s[0] { assert s[1..][k] == s[k + 1]; }
      }
      var r := Filter(f, s);
      assert r == (if f(s[0]) then [s[0]] else []) + t;
      forall i, j | 0 <= i < j < |r| ensures r[i] != r[j] {
        if f(s[0]) && i == 0 {
          assert r[j] == t[j - 1];
          assert r[j] in t;
        } else if f(s[0]) {
          assert r[i] == t[i - 1] && r[j] == t[j - 1];
        }
      }
    }
  }

  /** `fetchAvailableNungKapanForAssign`: one option per packet that both
      lists contain, in planning order, none twice. */
  function Eligible(planning: Option<seq<PlanningEntry>>, lssoing: seq<string>): (r: seq<NungKapan>)
    ensures forall n :: Offers(r, n) <==> Plans(PlanningList(planning), n) && n in lssoing
    ensures forall i, j :: 0 <= i < j < |r| ==> r[i].packetNo != r[j].packetNo
    ensures forall i :: 0 <= i < |r| ==> r[i] == EligibleOption(PlanningList(planning), r[i].packetNo)
    ensures var common := CommonPackets(PlanningList(planning), lssoing);
      |r| == |common| && forall i :: 0 <= i < |r| ==> r[i].packetNo == common[i]
  {
    var ps := PlanningList(planning);
    var common := CommonPackets(ps, lssoing);
    var r := seq(|common|, i requires 0 <= i < |common| => EligibleOption(ps, common[i]));
    assert forall i :: 0 <= i < |r| ==> r[i].packetNo == common[i];
    forall n ensures Offers(r, n) <==> n in common {
      if n in common {
        var i :| 0 <= i < |common| && common[i] == n;
        assert r[i].packetNo == n;
      }
      if Offers(r, n) {
        var i :| 0 <= i < |r| && r[i].packetNo == n;
        assert common[i] == n;
      }
    }
    r
  }

  /** One option per eligible packet, in planning order: of two packets both
      lists hold, the one planned first is offered first. */
  lemma EligibleFirstOrder(planning: Option<seq<PlanningEntry>>, lssoing: seq<string>, i: nat, j: nat)
    requires var ps := PlanningList(planning);
      i < j < |ps| && (forall k :: 0 <= k < j ==> ps[k].packetNo != ps[j].packetNo) &&
      ps[i].packetNo in lssoing && ps[j].packetNo in lssoing
    ensures var ps := PlanningList(planning); var r := Eligible(planning, lssoing);
      exists a, b :: 0 <= a < b < |r| && r[a].packetNo == ps[i].packetNo && r[b].packetNo == ps[j].packetNo
  {
    var ps := PlanningList(planning);
    CommonPacketsFirstOrder(ps, lssoing, i, j);
    var common := CommonPackets(ps, lssoing);
    var a, b :| 0 <= a < b < |common| && common[a] == ps[i].packetNo && common[b] == ps[j].packetNo;
    var r := Eligible(planning, lssoing);
    assert r[a].packetNo == common[a] && r[b].packetNo == common[b];
  }

  /** The kapan numbers of the eligible list, one per option. */
  function KapanColumn(eligible: seq<NungKapan>): (r: seq<string>)
    ensures |r| == |eligible| && forall i :: 0 <= i < |eligible| ==> r[i] == eligible[i].kapanNo
  {
    seq(|eligible|, i requires 0 <= i < |eligible| => eligible[i].kapanNo)
  }

  /** The kapan dropdown: each kapan number of the eligible list, once. */
  function KapanOptions(eligible: seq<NungKapan>): (r: seq<string>)
    ensures forall k :: k in r <==> exists i :: 0 <= i < |eligible| && eligible[i].kapanNo == k
    ensures NoDuplicates(r)
  {
    var ks := KapanColumn(eligible);
    assert forall k :: k in ks <==> exists i :: 0 <= i < |eligible| && eligible[i].kapanNo == k by {
      forall k | k in ks ensures exists i :: 0 <= i < |eligible| && eligible[i].kapanNo == k {
        var i :| 0 <= i < |ks| && ks[i] == k;
      }
      forall i | 0 <= i < |eligible| ensures eligible[i].kapanNo in ks { assert ks[i] == eligible[i].kapanNo; }
    }
    Distinct(ks)
  }

  /** Kapan numbers are offered in the order of their first appearance in
      the eligible list. */
  lemma KapanOptionsFirstOrder(eligible: seq<NungKapan>, i: nat, j: nat)
    requires i < j < |eligible| && forall k :: 0 <= k < j ==> eligible[k].kapanNo != eligible[j].kapanNo
    ensures var r := KapanOptions(eligible);
      exists a, b :: 0 <= a < b < |r| && r[a] == eligible[i].kapanNo && r[b] == eligible[j].kapanNo
  {
    var ks := KapanColumn(eligible);
    assert KapanOptions(eligible) == Distinct(ks);
    assert ks[j] !in ks[..j] by {
      forall k | 0 <= k < j ensures ks[..j][k] != ks[j] { assert ks[..j][k] == eligible[k].kapanNo; }
    }
    DistinctKeepsFirstOrder(ks, i, j);
  }

  /** The text the fetch of the two packet lists puts before the error's message. */
  const PacketDataPrefix := "\U{0AAA}\U{0AC7}\U{0A95}\U{0AC7}\U{0A9F} \U{0AA1}\U{0AC7}\U{0A9F}\U{0ABE} \U{0AB2}\U{0ABE}\U{0AB5}\U{0AA4}\U{0ABE}\U{0A82} \U{0AAD}\U{0AC2}\U{0AB2}: "

  /** The text the fetch of the entries table puts before the error's message. */
  const ShineEntriesPrefix := "Shine entries \U{0AB2}\U{0ABE}\U{0AB5}\U{0AA4}\U{0ABE}\U{0A82} \U{0AAD}\U{0AC2}\U{0AB2}: "

  /** The text a failed assign request puts before the error's message. */
  const AssignErrorPrefix := "Assign \U{0A95}\U{0AB0}\U{0AA4}\U{0AC0} \U{0AB5}\U{0A96}\U{0AA4}\U{0AC7} \U{0AAD}\U{0AC2}\U{0AB2}: "

  /** The text a failed submit request puts before the error's message. */
  const SubmitErrorPrefix := "Submit \U{0A95}\U{0AB0}\U{0AA4}\U{0AC0} \U{0AB5}\U{0A96}\U{0AA4}\U{0AC7} \U{0AAD}\U{0AC2}\U{0AB2}: "

  /** The message of the `RangeError` that `toISOString` throws on an
      invalid date. */
  const InvalidTime := "Invalid time value"

  /** A date field of a table row: a falsy text stays empty; any other text
      becomes `day(text)`, the calendar part of
      `new Date(text).toISOString()`, which is `None` for a date that does
      not parse. */
  function NormalizeDate(day: string -> Option<string>, d: string): (r: Option<string>)
    ensures d == "" ==> r == Some("")
    ensures d != "" ==> r == day(d)
  {
    if d == "" then Some("") else day(d)
  }

  /** One server row as the table shows it: the status mapped, the assign
      date normalised (empty when falsy), the submission date normalised
      (`null` when falsy), every other field copied. `None` when a date
      does not parse. */
  function MapEntry(day: string -> Option<string>, e: ShineEntry): (r: Option<ShineEntry>)
    ensures r.None? <==> NormalizeDate(day, e.assignDate).None? ||
                         (e.submissionDate.Some? && NormalizeDate(day, e.submissionDate.value).None?)
    ensures r.Some? ==>
      r.value.id == e.id && r.value.packetNo == e.packetNo && r.value.kapanNo == e.kapanNo &&
      r.value.partyName == e.partyName && r.value.karigarName == e.karigarName && r.value.weight == e.weight &&
      r.value.status == StageStatus(e.status) &&
      Some(r.value.assignDate) == NormalizeDate(day, e.assignDate) &&
      (e.submissionDate.None? || e.submissionDate.value == "" ==> r.value.submissionDate.None?) &&
      (e.submissionDate.Some? && e.submissionDate.value != "" ==> r.value.submissionDate == day(e.submissionDate.value))
  {
    match NormalizeDate(day, e.assignDate)
    case None => None
    case Some(assignDay) =>
      if e.submissionDate.None? || e.submissionDate.value == "" then
        Some(e.(status := StageStatus(e.status), assignDate := assignDay, submissionDate := None))
      else
        match day(e.submissionDate.value)
        case None => None
        case Some(submitDay) =>
          Some(e.(status := StageStatus(e.status), assignDate := assignDay, submissionDate := Some(submitDay)))
  }

  /** `data.map(..)` over the rows: every row mapped, or `None` as soon as
      one row's date fails. */
  function MapEntries(day: string -> Option<string>, rows: seq<ShineEntry>): (r: Option<seq<ShineEntry>>)
    ensures r.None? <==> exists i :: 0 <= i < |rows| && MapEntry(day, rows[i]).None?
    ensures r.Some? ==> |r.value| == |rows| && forall i :: 0 <= i < |rows| ==> MapEntry(day, rows[i]) == Some(r.value[i])
  {
    if rows == [] then Some([])
    else
      match MapEntry(day, rows[0])
      case None => None
      case Some(first) =>
        match MapEntries(day, rows[1..])
        case None =>
          assert exists i :: 0 <= i < |rows| && MapEntry(day, rows[i]).None? by {
            var k :| 0 <= k < |rows[1..]| && MapEntry(day, rows[1..][k]).None?;
            assert rows[k + 1] == rows[1..][k];
          }
          None
        case Some(rest) =>
          assert forall i :: 1 <= i < |rows| ==> rows[i] == rows[1..][i - 1];
          Some([first] + rest)
  }

  /** A date text that is already a `YYYY-MM-DD` day is its own day. */
  ghost predicate KeepsIsoDays(day: string -> Option<string>) {
    forall d :: IsIsoDate(d) ==> day(d) == Some(d)
  }

  /** Rows whose dates are already days, or empty, come through with only
      their status mapped (and an empty submission date read as `null`):
      normalising such a table never fails. */
  lemma MapEntriesOfDays(day: string -> Option<string>, rows: seq<ShineEntry>)
    requires KeepsIsoDays(day)
    requires forall i :: 0 <= i < |rows| ==> rows[i].assignDate == "" || IsIsoDate(rows[i].assignDate)
    requires forall i :: 0 <= i < |rows| ==> rows[i].submissionDate.None? || IsIsoDate(rows[i].submissionDate.value)
    ensures MapEntries(day, rows).Some?
    ensures forall i :: 0 <= i < |rows| ==> MapEntries(day, rows).value[i] == rows[i].(status := StageStatus(rows[i].status))
  {
    forall i | 0 <= i < |rows| ensures MapEntry(day, rows[i]) == Some(rows[i].(status := StageStatus(rows[i].status))) {
      var e := rows[i];
      if e.submissionDate.Some? {
        assert IsIsoDate(e.submissionDate.value);
        assert e.submissionDate.value != "" by { assert |e.submissionDate.value| == 10; }
      }
    }
  }

  /** A table row as a submit-dropdown option. */
  function AsOption(e: ShineEntry): NungKapan {
    NungKapan(e.packetNo, e.kapanNo, e.partyName, e.karigarName, e.weight, e.assignDate)
  }

  /** `assignedPacketsFromEntries`: the table rows still assigned, in table
      order, as dropdown options. */
  /** The test of that filter. */
  predicate IsAssignedEntry(e: ShineEntry) {
    e.status == "Assigned"
  }

  function AssignedFromEntries(entries: seq<ShineEntry>): (r: seq<NungKapan>)
    ensures forall x :: x in r <==> exists e :: e in entries && e.status == "Assigned" && x == AsOption(e)
    ensures var kept := Filter(IsAssignedEntry, entries);
      |r| == |kept| && forall i :: 0 <= i < |r| ==> r[i] == AsOption(kept[i])
  {
    var kept := Filter(IsAssignedEntry, entries);
    var r := seq(|kept|, i requires 0 <= i < |kept| => AsOption(kept[i]));
    assert forall x :: x in r ==> exists e :: e in kept && x == AsOption(e) by {
      forall x | x in r ensures exists e :: e in kept && x == AsOption(e) {
        var i :| 0 <= i < |r| && r[i] == x;
        assert kept[i] in kept;
      }
    }
    assert forall e :: e in kept ==> AsOption(e) in r by {
      forall e | e in kept ensures AsOption(e) in r {
        var i :| 0 <= i < |kept| && kept[i] == e;
        assert r[i] == AsOption(e);
      }
    }
    r
  }

  /** A server row is offered for submission exactly when its status is not
      `"submitted"`. */
  lemma SubmitDropdownIsUnsubmitted(e: ShineEntry)
    ensures AsOption(e) in AssignedFromEntries([e.(status := StageStatus(e.status))]) <==> e.status != "submitted"
  {
    var mapped := e.(status := StageStatus(e.status));
    assert AsOption(mapped) == AsOption(e);
    assert mapped in [mapped];
  }

  // ---------------------------------------------------------------------
  // Validation and request body
  // ---------------------------------------------------------------------

  predicate WeightRejected(num: Numerics, weight: string) {
    match num.parseFloat(weight)
    case None => false
    case Some(v) => v <= 0.0
  }

  /** The assign handler's early returns, in order. */
  function AssignCheck(f: AssignForm, today: string, num: Numerics): (r: Option<Problem>)
    ensures r == None <==>
      f.packetNo != "" && f.kapanNo != "" && f.weight != "" && f.assignDate != "" &&
      !WeightRejected(num, f.weight) && !After(f.assignDate, today) &&
      (f.karigarName != "" || f.partyName != "")
    ensures r == Some(MissingFields) <==>
      f.packetNo == "" || f.kapanNo == "" || f.weight == "" || f.assignDate == ""
    ensures r == Some(NoWorker) ==> f.karigarName == "" && f.partyName == ""
  {
    if f.packetNo == "" || f.kapanNo == "" || f.weight == "" || f.assignDate == "" then Some(MissingFields)
    else if WeightRejected(num, f.weight) then Some(InvalidWeight)
    else if After(f.assignDate, today) then Some(FutureDate)
    else if f.karigarName == "" && f.partyName == "" then Some(NoWorker)
    else None
  }

  /** The JSON body of the assign request. */
  datatype AssignBody = AssignBody(
    packetNo: string, kapanNo: string, karigarName: Option<string>, partyName: Option<string>,
    weight: Option<real>, assignDate: string)

  /** `x || null` on a text field. */
  function OrNull(s: string): (r: Option<string>)
    ensures r.None? <==> s == ""
    ensures r.Some? ==> r.value == s
  {
    if s == "" then None else Some(s)
  }

  function AssignRequest(f: AssignForm, num: Numerics): AssignBody {
    AssignBody(f.packetNo, f.kapanNo, OrNull(f.karigarName), OrNull(f.partyName), num.parseFloat(f.weight), f.assignDate)
  }

  /** Every request the handler actually sends names a karigar or a party. */
  lemma AcceptedAssignNamesWorker(f: AssignForm, today: string, num: Numerics)
    requires AssignCheck(f, today, num) == None
    ensures AssignRequest(f, num).karigarName.Some? || AssignRequest(f, num).partyName.Some?
  {
  }

  /** The submit handler's early returns: packet and date, then the date
      against the packet's assign date in `lookup`, then the future check. */
  function SubmitCheck(f: SubmitForm, today: string, lookup: seq<NungKapan>): (r: Option<Problem>)
    ensures r == Some(MissingFields) <==> f.packetNo == "" || f.submissionDate == ""
    ensures r == None ==> f.packetNo != "" && f.submissionDate != "" && !After(f.submissionDate, today)
  {
    if f.packetNo == "" || f.submissionDate == "" then Some(MissingFields)
    else
      match Find((p: NungKapan) => p.packetNo == f.packetNo, lookup)
      case Some(p) =>
        if p.assignDate != "" && StringLess(f.submissionDate, p.assignDate) then Some(BeforeAssignDate)
        else if After(f.submissionDate, today) then Some(FutureDate)
        else None
      case None =>
        if After(f.submissionDate, today) then Some(FutureDate) else None
  }

  /** The lookup the screen passes is a list that is never filled, so the
      "before the assign date" refusal cannot happen, and a submit passes
      exactly when packet and date are present and the date is not later
      than today. */
  lemma BeforeAssignCheckIsDead(f: SubmitForm, today: string)
    ensures SubmitCheck(f, today, []) != Some(BeforeAssignDate)
    ensures SubmitCheck(f, today, []) == None <==>
      f.packetNo != "" && f.submissionDate != "" && !After(f.submissionDate, today)
  {
  }

  /** `weight?.toString() || ''`. */
  function WeightText(num: Numerics, w: Option<real>): string {
    if w.Some? then num.show(w.value) else ""
  }

  // ---------------------------------------------------------------------
  // The screen
  // ---------------------------------------------------------------------

  class ActipartScreen {
    const num: Numerics
    /** Declared without a setter in the component, so it stays []. */
    const assignedShinePacketsForSubmit: seq<NungKapan>
    var assignForm: AssignForm
    var submitForm: SubmitForm
    var availableNungKapanForAssign: seq<NungKapan>
    var shineEntries: seq<ShineEntry>
    var planningEntriesData: seq<PlanningEntry>
    var notice: Notice<Problem>

    constructor (num: Numerics, today: string)
      ensures this.num == num && assignedShinePacketsForSubmit == []
      ensures assignForm == FreshAssign(today) && submitForm == FreshSubmit(today)
      ensures availableNungKapanForAssign == [] && shineEntries == [] && planningEntriesData == []
      ensures notice == Silent
    {
      this.num := num;
      assignedShinePacketsForSubmit := [];
      assignForm := FreshAssign(today);
      submitForm := FreshSubmit(today);
      availableNungKapanForAssign := [];
      shineEntries := [];
      planningEntriesData := [];
      notice := Silent;
    }

    /** Loading the assign dropdown from the planning and lssoing endpoints. */
    method FetchAvailableNungKapanForAssign(token: string,
        planning: Outcome<Option<seq<PlanningEntry>>>, lssoing: Outcome<seq<string>>)
      modifies this`availableNungKapanForAssign, this`notice
      ensures token == "" ==> availableNungKapanForAssign == old(availableNungKapanForAssign) && notice == Refused(NoToken)
      ensures token != "" && (planning.Failed? || lssoing.Failed?) ==>
        availableNungKapanForAssign == old(availableNungKapanForAssign) &&
        notice == Refused(RequestFailed(PacketDataPrefix +
          (if planning.Failed? then planning.message else lssoing.message)))
      ensures token != "" && planning.Ok? && lssoing.Ok? ==>
        availableNungKapanForAssign == Eligible(planning.payload, lssoing.payload) && notice == old(notice)
    {
      if token == "" {
        notice := Refused(NoToken);
        return;
      }
      if planning.Failed? {
        notice := Refused(RequestFailed(PacketDataPrefix + planning.message));
      } else if lssoing.Failed? {
        notice := Refused(RequestFailed(PacketDataPrefix + lssoing.message));
      } else {
        availableNungKapanForAssign := Eligible(planning.payload, lssoing.payload);
      }
    }

    /** Loading the entries table. Each row's status is mapped, and its
        dates are normalised by `day`; a date that does not parse makes the
        whole mapping throw, which the handler reports like a failed
        request, keeping the table. */
    method FetchShineData(token: string, reply: Outcome<seq<ShineEntry>>, day: string -> Option<string>)
      modifies this`shineEntries, this`notice
      ensures token == "" ==> shineEntries == old(shineEntries) && notice == Refused(NoToken)
      ensures token != "" && reply.Failed? ==>
        shineEntries == old(shineEntries) && notice == Refused(RequestFailed(ShineEntriesPrefix + reply.message))
      ensures token != "" && reply.Ok? && MapEntries(day, reply.payload).None? ==>
        shineEntries == old(shineEntries) && notice == Refused(RequestFailed(ShineEntriesPrefix + InvalidTime))
      ensures token != "" && reply.Ok? && MapEntries(day, reply.payload).Some? ==>
        notice == old(notice) && shineEntries == MapEntries(day, reply.payload).value
    {
      if token == "" {
        notice := Refused(NoToken);
        return;
      }
      match reply
      case Failed(msg) =>
        notice := Refused(RequestFailed(ShineEntriesPrefix + msg));
      case Ok(rows) =>
        match MapEntries(day, rows)
        case None => notice := Refused(RequestFailed(ShineEntriesPrefix + InvalidTime));
        case Some(mapped) => shineEntries := mapped;
    }

    /** Loading the planning entries used for auto-fill; failures are only
        logged. */
    method FetchPlanningEntriesData(token: string, reply: Outcome<Option<seq<PlanningEntry>>>)
      modifies this`planningEntriesData
      ensures planningEntriesData ==
        if token != "" && reply.Ok? then PlanningList(reply.payload) else old(planningEntriesData)
    {
      if token != "" && reply.Ok? {
        planningEntriesData := PlanningList(reply.payload);
      }
    }

    /** The assign form's auto-fill effect: with a packet chosen and planning
        entries loaded, a packet found there fills kapan, party and weight;
        a packet not found leaves the form alone. */
    method AutoFillAssign()
      modifies this`assignForm
      ensures var f := old(assignForm);
        if f.packetNo != "" && |planningEntriesData| > 0 && FirstEntry(planningEntriesData, f.packetNo).Some? then
          var e := FirstEntry(planningEntriesData, f.packetNo).value;
          assignForm == f.(kapanNo := e.kapanNo, partyName := e.plannerName, weight := WeightText(num, e.kapanWt))
        else assignForm == f
    {
      if assignForm.packetNo != "" && |planningEntriesData| > 0 {
        var found := FirstEntry(planningEntriesData, assignForm.packetNo);
        if found.Some? {
          var e := found.value;
          assignForm := assignForm.(kapanNo := e.kapanNo, partyName := e.plannerName, weight := WeightText(num, e.kapanWt));
        }
      }
    }

    /** The submit form's auto-fill effect, the same rule. */
    method AutoFillSubmit()
      modifies this`submitForm
      ensures var f := old(submitForm);
        if f.packetNo != "" && |planningEntriesData| > 0 && FirstEntry(planningEntriesData, f.packetNo).Some? then
          var e := FirstEntry(planningEntriesData, f.packetNo).value;
          submitForm == f.(kapanNo := e.kapanNo, partyName := e.plannerName, weight := WeightText(num, e.kapanWt))
        else submitForm == f
    {
      if submitForm.packetNo != "" && |planningEntriesData| > 0 {
        var found := FirstEntry(planningEntriesData, submitForm.packetNo);
        if found.Some? {
          var e := found.value;
          submitForm := submitForm.(kapanNo := e.kapanNo, partyName := e.plannerName, weight := WeightText(num, e.kapanWt));
        }
      }
    }

    /** Choosing a packet in the submit dropdown: the form is rebuilt from the
        matching assigned entry, or blanked when there is none; the date is
        kept. */
    method SelectSubmitPacket(value: string)
      modifies this`submitForm
      ensures match Find((p: NungKapan) => p.packetNo == value, AssignedFromEntries(shineEntries))
        case Some(p) => submitForm == SubmitForm(p.packetNo, p.kapanNo, p.karigarName, p.partyName,
                                                 WeightText(num, p.weight), old(submitForm).submissionDate)
        case None => submitForm == FreshSubmit(old(submitForm).submissionDate)
    {
      var found := Find((p: NungKapan) => p.packetNo == value, AssignedFromEntries(shineEntries));
      match found
      case Some(p) =>
        submitForm := SubmitForm(p.packetNo, p.kapanNo, p.karigarName, p.partyName, WeightText(num, p.weight), submitForm.submissionDate);
      case None =>
        submitForm := FreshSubmit(submitForm.submissionDate);
    }

    method EditAssign(f: AssignForm)
      modifies this`assignForm
      ensures assignForm == f
    {
      assignForm := f;
    }

    method EditSubmit(f: SubmitForm)
      modifies this`submitForm
      ensures submitForm == f
    {
      submitForm := f;
    }

    /** The assign handler. Validation comes first, then the stored token,
        then the request; on success the assign form is reset to today, the
        submit form takes the packet number, and both lists are re-fetched. */
    method HandleAssign(today: string, token: string, reply: Outcome<()>) returns (reloads: set<Source>)
      modifies this`assignForm, this`submitForm, this`notice
      ensures var f := old(assignForm);
        if AssignCheck(f, today, num).Some? then
          assignForm == f && submitForm == old(submitForm) && reloads == {} &&
          notice == Refused(AssignCheck(f, today, num).value)
        else if token == "" then
          assignForm == f && submitForm == old(submitForm) && reloads == {} && notice == Refused(NoToken)
        else if reply.Failed? then
          assignForm == f && submitForm == old(submitForm) && reloads == {} &&
          notice == Refused(RequestFailed(AssignErrorPrefix + reply.message))
        else
          assignForm == FreshAssign(today) && submitForm == old(submitForm).(packetNo := f.packetNo) &&
          reloads == {EligibleList, EntriesTable} && notice == Confirmed
    {
      reloads := {};
      var f := assignForm;
      var check := AssignCheck(f, today, num);
      if check.Some? {
        notice := Refused(check.value);
        return;
      }
      if token == "" {
        notice := Refused(NoToken);
        return;
      }
      if reply.Failed? {
        notice := Refused(RequestFailed(AssignErrorPrefix + reply.message));
        return;
      }
      notice := Confirmed;
      assignForm := FreshAssign(today);
      reloads := {EligibleList, EntriesTable};
      submitForm := submitForm.(packetNo := f.packetNo);
    }

    /** The submit handler: validation, token, request; on success the submit
        form is reset to today and both lists are re-fetched. */
    method HandleSubmit(today: string, token: string, reply: Outcome<()>) returns (reloads: set<Source>)
      modifies this`submitForm, this`notice
      ensures var f := old(submitForm);
        var check := SubmitCheck(f, today, assignedShinePacketsForSubmit);
        if check.Some? then
          submitForm == f && reloads == {} && notice == Refused(check.value)
        else if token == "" then
          submitForm == f && reloads == {} && notice == Refused(NoToken)
        else if reply.Failed? then
          submitForm == f && reloads == {} && notice == Refused(RequestFailed(SubmitErrorPrefix + reply.message))
        else
          submitForm == FreshSubmit(today) && reloads == {EligibleList, EntriesTable} && notice == Confirmed
    {
      reloads := {};
      var check := SubmitCheck(submitForm, today, assignedShinePacketsForSubmit);
      if check.Some? {
        notice := Refused(check.value);
        return;
      }
      if token == "" {
        notice := Refused(NoToken);
        return;
      }
      if reply.Failed? {
        notice := Refused(RequestFailed(SubmitErrorPrefix + reply.message));
        return;
      }
      notice := Confirmed;
      submitForm := FreshSubmit(today);
      reloads := {EligibleList, EntriesTable};
    }

    /** The kapan dropdown of the assign form. */
    function KapanChoices(): (r: seq<string>)
      reads this
      ensures forall k :: k in r <==>
        exists i :: 0 <= i < |availableNungKapanForAssign| && availableNungKapanForAssign[i].kapanNo == k
    {
      KapanOptions(availableNungKapanForAssign)
    }
  }
}
