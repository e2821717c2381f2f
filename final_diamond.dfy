/** The final-diamond tab (`components/forms/FinalDiamondform.tsx`): an office
    dropdown listing each office once, a rough-name dropdown restricted to the
    chosen office, the clearing of a rough name that no longer belongs to the
    office, and the total of the three part weights. */
module FinalDiamond {
  import opened Common
  import opened Foreign
  import opened FormState

  /** An office-processing record, as the list endpoint returns it. */
  datatype OfficeRecord = OfficeRecord(officeName: string, roughName: string)

  function OfficeNamesOf(records: seq<OfficeRecord>): seq<string> {
    seq(|records|, i requires 0 <= i < |records| => records[i].officeName)
  }

  /** The office dropdown: every office of the records, each once, in order
      of first appearance. */
  function OfficeNames(records: seq<OfficeRecord>): (r: seq<string>)
    ensures forall n :: n in r <==> exists k :: 0 <= k < |records| && records[k].officeName == n
    ensures NoDuplicates(r)
  {
    var names := OfficeNamesOf(records);
    assert forall n :: n in names <==> exists k :: 0 <= k < |records| && records[k].officeName == n by {
      forall n | n in names ensures exists k :: 0 <= k < |records| && records[k].officeName == n {
        var k :| 0 <= k < |names| && names[k] == n;
      }
      forall n | exists k :: 0 <= k < |records| && records[k].officeName == n ensures n in names {
        var k :| 0 <= k < |records| && records[k].officeName == n;
        assert names[k] == n;
      }
    }
    Distinct(names)
  }

  /** An office that first appears before another is listed before it. */
  lemma OfficeNamesFirstOrder(records: seq<OfficeRecord>, i: nat, j: nat)
    requires i < j < |records|
    requires forall k :: 0 <= k < j ==> records[k].officeName != records[j].officeName
    ensures exists a, b :: 0 <= a < b < |OfficeNames(records)| && OfficeNames(records)[a] == records[i].officeName &&
                           OfficeNames(records)[b] == records[j].officeName
  {
    var names := OfficeNamesOf(records);
    assert OfficeNames(records) == Distinct(names);
    assert names[i] == records[i].officeName && names[j] == records[j].officeName;
    assert names[j] !in names[..j] by {
      forall k | 0 <= k < j ensures names[..j][k] != names[j] {
        assert names[..j][k] == records[k].officeName;
      }
    }
    DistinctKeepsFirstOrder(names, i, j);
  }

  /** The rough names of the records of one office (`rec.office_name ===
      office`: only a text value can match), each once. */
  function RoughNamesOf(records: seq<OfficeRecord>, office: Value): (r: seq<string>)
    ensures forall n :: n in r <==> exists k :: 0 <= k < |records| && Text(records[k].officeName) == office && records[k].roughName == n
    ensures NoDuplicates(r)
  {
    var kept := Filter((rec: OfficeRecord) => Text(rec.officeName) == office, records);
    var names := seq(|kept|, i requires 0 <= i < |kept| => kept[i].roughName);
    assert forall n :: n in names <==> exists k :: 0 <= k < |records| && Text(records[k].officeName) == office && records[k].roughName == n by {
      forall n | n in names
        ensures exists k :: 0 <= k < |records| && Text(records[k].officeName) == office && records[k].roughName == n {
        var i :| 0 <= i < |names| && names[i] == n;
        assert kept[i] in kept;
        var k :| 0 <= k < |records| && records[k] == kept[i];
      }
      forall n | exists k :: 0 <= k < |records| && Text(records[k].officeName) == office && records[k].roughName == n
        ensures n in names {
        var k :| 0 <= k < |records| && Text(records[k].officeName) == office && records[k].roughName == n;
        assert records[k] in kept;
        var i :| 0 <= i < |kept| && kept[i] == records[k];
        assert names[i] == n;
      }
    }
    Distinct(names)
  }

  /** The rough-name dropdown for the chosen office: none while no office is
      chosen. */
  function RoughList(records: seq<OfficeRecord>, office: Value): (r: seq<string>)
    ensures !Truthy(office) ==> r == []
    ensures Truthy(office) ==> r == RoughNamesOf(records, office)
  {
    if !Truthy(office) then [] else RoughNamesOf(records, office)
  }

  /** `list.includes(value)` with a record value: only text can be listed. */
  predicate Listed(list: seq<string>, v: Value) {
    v.Text? && v.s in list
  }

  /** The rough name after the office-change effect as written: with an
      office chosen it is cleared unless it is in `previous`, the list the
      effect computed last time, not the one it has just computed. */
  function RoughAfterOfficeChangeAsWritten(previous: seq<string>, office: Value, rough: Value): (r: Value)
    ensures r == rough || r == Text("")
    ensures !Truthy(office) ==> r == rough
    ensures Truthy(office) ==> (r == rough <==> Listed(previous, rough) || rough == Text(""))
  {
    if !Truthy(office) then rough
    else if !Listed(previous, rough) then Text("")
    else rough
  }

  /** When the list from last time is the one for the office now chosen (the
      effect ran again for the same office, say after the records arrived),
      the check as written agrees with the corrected one. */
  lemma AsWrittenAgreesForSameList(records: seq<OfficeRecord>, office: Value, rough: Value)
    ensures RoughAfterOfficeChangeAsWritten(RoughList(records, office), office, rough) ==
            RoughAfterOfficeChange(records, office, rough)
  {
  }

  /** Switching from office A to office B keeps a rough name of A's that B
      does not have, because the check reads A's list. */
  lemma StaleListKeepsForeignRough()
    ensures var records := [OfficeRecord("A", "r1"), OfficeRecord("B", "r2")];
      var previous := RoughList(records, Text("A"));
      RoughAfterOfficeChangeAsWritten(previous, Text("B"), Text("r1")) == Text("r1") &&
      !Listed(RoughList(records, Text("B")), Text("r1"))
  {
    var records := [OfficeRecord("A", "r1"), OfficeRecord("B", "r2")];
    var previous := RoughList(records, Text("A"));
    assert "r1" in previous by {
      assert Text(records[0].officeName) == Text("A") && records[0].roughName == "r1";
    }
    assert "r1" !in RoughList(records, Text("B")) by {
      forall k | 0 <= k < |records| ensures !(Text(records[k].officeName) == Text("B") && records[k].roughName == "r1") {
        assert k == 0 || k == 1;
      }
    }
  }

  /** The rough name after the office-change effect, checked against the
      list for the newly chosen office. */
  function RoughAfterOfficeChange(records: seq<OfficeRecord>, office: Value, rough: Value): (r: Value)
    ensures !Truthy(office) ==> r == rough
    ensures Truthy(office) ==> r == (if Listed(RoughList(records, office), rough) then rough else Text(""))
  {
    if !Truthy(office) then rough
    else if !Listed(RoughList(records, office), rough) then Text("")
    else rough
  }

  /** With an office chosen, the rough name afterwards is blank or one the
      office's dropdown lists; a listed one is kept. */
  lemma RoughAfterOfficeChangeBelongs(records: seq<OfficeRecord>, office: Value, rough: Value)
    requires Truthy(office)
    ensures var r := RoughAfterOfficeChange(records, office, rough);
      r == Text("") || Listed(RoughList(records, office), r)
    ensures Listed(RoughList(records, office), rough) ==> RoughAfterOfficeChange(records, office, rough) == rough
  {
  }

  /** `Number(v || 0)`; `None` is `NaN`. */
  function NumberOf(num: Numerics, v: Value): Option<real> {
    if !Truthy(v) then Some(0.0)
    else match v
      case Text(s) => num.number(s)
      case Number(n) => Some(n)
      case _ => None
  }

  /** The sum of the three part weights, `NaN` when any is not a number; the
      two-decimal rounding is not modelled. */
  function TotalWeight(num: Numerics, topi: Value, patti: Value, simcard: Value): (r: Option<real>)
    ensures r.Some? <==> NumberOf(num, topi).Some? && NumberOf(num, patti).Some? && NumberOf(num, simcard).Some?
  {
    match (NumberOf(num, topi), NumberOf(num, patti), NumberOf(num, simcard))
    case (Some(a), Some(b), Some(c)) => Some(a + b + c)
    case _ => None
  }

  /** A blank part weight counts as 0, and the initial record totals 0. */
  lemma TotalWeightBlanks(num: Numerics, p: Value, s: Value)
    ensures TotalWeight(num, Text(""), p, s) == TotalWeight(num, Number(0.0), p, s)
    ensures TotalWeight(num, Undefined, p, s) == TotalWeight(num, Number(0.0), p, s)
    ensures TotalWeight(num, InitialValue(Topi), InitialValue(Patti), InitialValue(Simcard)) == Some(0.0)
  {
  }

  /** Three typed weights that parse add up. */
  lemma TotalWeightOfTyped(num: Numerics, a: string, b: string, c: string)
    requires a != "" && b != "" && c != ""
    requires num.number(a).Some? && num.number(b).Some? && num.number(c).Some?
    ensures TotalWeight(num, Text(a), Text(b), Text(c)) ==
      Some(num.number(a).value + num.number(b).value + num.number(c).value)
  {
  }

  datatype Problem = RequestFailed(message: string)

  const DefaultSuccess: string := "Final diamond record added successfully"

  /** The text the fetch of office records puts before the error's message. */
  const OfficeRecordsPrefix := "Office records \U{0AB2}\U{0ABE}\U{0AB5}\U{0AA4}\U{0ABE}\U{0A82} \U{0AAD}\U{0AC2}\U{0AB2}: "

  /** The text a failed submit puts before the error's message, with no
      separator. It reads "Final diamond submitted successfully!", although
      it is shown only when the submit failed. */
  const SubmitFailurePrefix := "Final diamond \U{0AB8}\U{0AAB}\U{0AB3}\U{0AA4}\U{0ABE}\U{0AAA}\U{0AC2}\U{0AB0}\U{0ACD}\U{0AB5}\U{0A95} submit \U{0AA5}\U{0AAF}\U{0AC1}\U{0A82}!"

  class FinalDiamondScreen {
    const num: Numerics
    const store: FormStore
    var officeRecords: seq<OfficeRecord>
    var officeNames: seq<string>
    var roughNames: seq<string>
    var totalWeight: Option<real>
    var notice: Notice<Problem>
    var noticeText: string

    constructor (num: Numerics, store: FormStore)
      ensures this.num == num && this.store == store
      ensures officeRecords == [] && officeNames == [] && roughNames == [] && totalWeight == Some(0.0)
      ensures notice == Silent && noticeText == ""
    {
      this.num := num;
      this.store := store;
      officeRecords := [];
      officeNames := [];
      roughNames := [];
      totalWeight := Some(0.0);
      notice := Silent;
      noticeText := "";
    }

    /** The mount effect: the records and the office list from them. */
    method FetchOfficeRecords(reply: Outcome<seq<OfficeRecord>>)
      modifies this`officeRecords, this`officeNames, this`notice
      ensures reply.Ok? ==> officeRecords == reply.payload && officeNames == OfficeNames(reply.payload) && notice == old(notice)
      ensures reply.Failed? ==> officeRecords == old(officeRecords) && officeNames == old(officeNames) &&
                                notice == Refused(RequestFailed(OfficeRecordsPrefix + reply.message))
    {
      match reply
      case Ok(records) =>
        officeRecords := records;
        officeNames := OfficeNames(records);
      case Failed(msg) =>
        notice := Refused(RequestFailed(OfficeRecordsPrefix + msg));
    }

    /** The effect on a new office (or new records): the rough-name list is
        recomputed for that office, and the rough name is cleared when it is
        not in the list as it stood before this run, the one computed for
        the office chosen previously. */
    method OnOfficeChange()
      requires store.Valid()
      modifies this`roughNames, store`formData
      ensures store.Valid()
      ensures var office := old(store.formData)[OfficeNameFinal];
        roughNames == RoughList(officeRecords, office) &&
        store.formData == old(store.formData)[Roughnamefinal :=
          RoughAfterOfficeChangeAsWritten(old(roughNames), office, old(store.formData)[Roughnamefinal])]
    {
      var office := store.formData[OfficeNameFinal];
      if !Truthy(office) {
        roughNames := [];
        assert store.formData == store.formData[Roughnamefinal := store.formData[Roughnamefinal]];
        return;
      }
      var previous := roughNames;
      roughNames := RoughNamesOf(officeRecords, office);
      if !Listed(previous, store.formData[Roughnamefinal]) {
        store.UpdateFormData(Roughnamefinal, Text(""));
      } else {
        assert store.formData == store.formData[Roughnamefinal := store.formData[Roughnamefinal]];
      }
    }

    /** The weight effect. */
    method RecomputeTotal()
      requires store.Valid()
      modifies this`totalWeight
      ensures totalWeight == TotalWeight(num, store.formData[Topi], store.formData[Patti], store.formData[Simcard])
    {
      totalWeight := TotalWeight(num, store.formData[Topi], store.formData[Patti], store.formData[Simcard]);
    }

    /** On a response that is ok the store is asked to mark "measurements"
        complete (the store's marker only logs) and the server's message, or
        a default, is shown; anything else shows the failure. */
    method HandleSubmit(reply: Outcome<string>) returns (marked: Option<string>)
      modifies this`notice, this`noticeText
      ensures reply.Ok? ==> marked == Some("measurements") && notice == Confirmed
      ensures reply.Ok? ==> noticeText == (if reply.payload != "" then reply.payload else DefaultSuccess)
      ensures reply.Failed? ==> marked == None && notice == Refused(RequestFailed(SubmitFailurePrefix + reply.message))
      ensures reply.Failed? ==> noticeText == old(noticeText)
    {
      match reply
      case Ok(message) =>
        notice := Confirmed;
        noticeText := if message != "" then message else DefaultSuccess;
        store.MarkTabComplete("measurements");
        marked := Some("measurements");
      case Failed(msg) =>
        notice := Refused(RequestFailed(SubmitFailurePrefix + msg));
        marked := None;
    }
  }
}
