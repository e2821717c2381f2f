/** The rough-diamond entry tab (`components/forms/DiamondDetailsForm.tsx`):
    the field checks that fill the shared error map, the contact dropdowns
    that fill in a mobile number, and the request body built from a form
    that passed the checks. */
module DiamondDetails {
  import opened Common
  import opened Foreign
  import opened FormState
  import opened Tabs

  /** The text fields this tab reads from the shared record. */
  datatype Details = Details(
    roughname: string, carat: string, price: string, color: string,
    size: string, quality: string, whiteness: string,
    vepariname: string, veparicontact: string, dalalname: string, dalalcontact: string)

  /** The tab's inputs only ever store text; any other value reads as ''. */
  function TextOf(v: Value): string {
    if v.Text? then v.s else ""
  }

  function DetailsOf(data: map<Field, Value>): Details
    requires forall f :: f in data
  {
    Details(
      TextOf(data[Roughname]), TextOf(data[Carat]), TextOf(data[Price]), TextOf(data[Color]),
      TextOf(data[Size]), TextOf(data[Quality]), TextOf(data[Whiteness]),
      TextOf(data[Vepariname]), TextOf(data[Veparicontact]), TextOf(data[Dalalname]), TextOf(data[Dalalcontact]))
  }

  /** A vepari or dalal from the contact lists. */
  datatype Contact = Contact(id: int, name: string, mobile: string)

  // ---------------------------------------------------------------------
  // Validation
  // ---------------------------------------------------------------------

  const RoughnameMessage: string := "હીરાની ID ઓછામાં ઓછી 3 અક્ષરની હોવી જોઈએ"
  const CaratMessage: string := "માન્ય કેરેટ વજન દાખલ કરો"
  const PriceMessage: string := "માન્ય ખરીદી કિંમત દાખલ કરો"
  const ColorMessage: string := "કલર 0 થી 100% વચ્ચે હોવો જોઈએ"
  const WhitenessMessage: string := "સફેદ 0 થી 100% વચ્ચે હોવો જોઈએ"
  const VepariMessage: string := "વેપારી પસંદ કરો"
  const DalalMessage: string := "દલાલ પસંદ કરો"

  /** `!x || isNaN(Number(x)) || Number(x) <= 0`. */
  predicate AmountRejected(num: Numerics, x: string) {
    x == "" || num.number(x).None? || num.number(x).value <= 0.0
  }

  /** `isNaN(v) || v < 0 || v > 100`. */
  predicate PercentRejected(v: Option<real>) {
    v.None? || v.value < 0.0 || v.value > 100.0
  }

  /** Whether the check on field f fails; fields without a check never do. */
  predicate Fails(num: Numerics, d: Details, f: Field) {
    match f
    case Roughname => d.roughname == "" || |d.roughname| < 3
    case Carat => AmountRejected(num, d.carat)
    case Price => AmountRejected(num, d.price)
    case Color => PercentRejected(num.number(d.color))
    case Whiteness => d.whiteness != "" && PercentRejected(num.number(d.whiteness))
    case Vepariname => d.vepariname == ""
    case Dalalname => d.dalalname == ""
    case _ => false
  }

  function Message(f: Field): string {
    match f
    case Roughname => RoughnameMessage
    case Carat => CaratMessage
    case Price => PriceMessage
    case Color => ColorMessage
    case Whiteness => WhitenessMessage
    case Vepariname => VepariMessage
    case Dalalname => DalalMessage
    case _ => ""
  }

  /** The fields `validateForm` checks. */
  const CheckedFields: set<Field> := {Roughname, Carat, Price, Color, Whiteness, Vepariname, Dalalname}

  /** The error entries for the checks on the fields in fs. */
  function ErrorsOn(num: Numerics, d: Details, fs: set<Field>): map<Field, string> {
    map f | f in fs && Fails(num, d, f) :: Message(f)
  }

  /** The error map `validateForm` builds: one entry per failed check, each
      with that check's message, and nothing for a check that passes. */
  function ErrorMap(num: Numerics, d: Details): (r: map<Field, string>)
    ensures Roughname in r <==> d.roughname == "" || |d.roughname| < 3
    ensures Carat in r <==> AmountRejected(num, d.carat)
    ensures Price in r <==> AmountRejected(num, d.price)
    ensures Color in r <==> PercentRejected(num.number(d.color))
    ensures Whiteness in r <==> d.whiteness != "" && PercentRejected(num.number(d.whiteness))
    ensures Vepariname in r <==> d.vepariname == ""
    ensures Dalalname in r <==> d.dalalname == ""
    ensures r.Keys <= CheckedFields
    ensures forall f :: f in r ==> r[f] == Message(f) && r[f] != ""
  {
    ErrorsOn(num, d, CheckedFields)
  }

  /** Running one more check adds its entry exactly when it fails. */
  lemma ErrorsOnAdd(num: Numerics, d: Details, fs: set<Field>, g: Field)
    ensures ErrorsOn(num, d, fs + {g}) ==
      if Fails(num, d, g) then ErrorsOn(num, d, fs)[g := Message(g)] else ErrorsOn(num, d, fs)
  {
  }

  /** The checks in the order `validateForm` runs them. */
  const CheckOrder: seq<Field> := [Roughname, Carat, Price, Color, Whiteness, Vepariname, Dalalname]

  /** One check: its entry is added when it fails. */
  function Put(m: map<Field, string>, failed: bool, g: Field): map<Field, string> {
    if failed then m[g := Message(g)] else m
  }

  function Step(num: Numerics, d: Details, m: map<Field, string>, g: Field): map<Field, string> {
    Put(m, Fails(num, d, g), g)
  }

  /** The error object after running the checks on fs, in order. */
  function Accumulate(num: Numerics, d: Details, fs: seq<Field>): map<Field, string>
    decreases |fs|
  {
    if fs == [] then map[] else Step(num, d, Accumulate(num, d, fs[..|fs| - 1]), fs[|fs| - 1])
  }

  /** Running checks in order yields the failed checks' entries, whatever
      the order. */
  lemma {:induction false} AccumulateIsErrorsOn(num: Numerics, d: Details, fs: seq<Field>)
    ensures Accumulate(num, d, fs) == ErrorsOn(num, d, set f | f in fs)
    decreases |fs|
  {
    if fs == [] {
      assert (set f | f in fs) == {};
    } else {
      var init := fs[..|fs| - 1];
      AccumulateIsErrorsOn(num, d, init);
      ErrorsOnAdd(num, d, (set f | f in init), fs[|fs| - 1]);
      assert (set f | f in fs) == (set f | f in init) + {fs[|fs| - 1]} by {
        assert fs == init + [fs[|fs| - 1]];
      }
    }
  }

  /** The fold over the seven checks, spelled out. */
  lemma CheckOrderSteps(num: Numerics, d: Details)
    ensures Accumulate(num, d, CheckOrder) ==
      Step(num, d, Step(num, d, Step(num, d, Step(num, d, Step(num, d, Step(num, d, Step(num, d,
        map[], Roughname), Carat), Price), Color), Whiteness), Vepariname), Dalalname)
  {
    var c := CheckOrder;
    assert c[..1][..0] == [];
    assert Accumulate(num, d, c[..1]) == Step(num, d, map[], Roughname);
    assert c[..2][..1] == c[..1];
    assert Accumulate(num, d, c[..2]) == Step(num, d, Accumulate(num, d, c[..1]), Carat);
    assert c[..3][..2] == c[..2];
    assert Accumulate(num, d, c[..3]) == Step(num, d, Accumulate(num, d, c[..2]), Price);
    assert c[..4][..3] == c[..3];
    assert Accumulate(num, d, c[..4]) == Step(num, d, Accumulate(num, d, c[..3]), Color);
    assert c[..5][..4] == c[..4];
    assert Accumulate(num, d, c[..5]) == Step(num, d, Accumulate(num, d, c[..4]), Whiteness);
    assert c[..6][..5] == c[..5];
    assert Accumulate(num, d, c[..6]) == Step(num, d, Accumulate(num, d, c[..5]), Vepariname);
    assert c[..|c| - 1] == c[..6];
  }

  lemma CheckOrderIsErrorMap(num: Numerics, d: Details)
    ensures Accumulate(num, d, CheckOrder) == ErrorMap(num, d)
  {
    AccumulateIsErrorsOn(num, d, CheckOrder);
    assert (set f | f in CheckOrder) == CheckedFields;
  }

  /** The error map as the seven checks build it, conditions spelled out. */
  lemma ErrorMapSteps(num: Numerics, d: Details)
    ensures ErrorMap(num, d) ==
      Put(Put(Put(Put(Put(Put(Put(map[],
        d.roughname == "" || |d.roughname| < 3, Roughname),
        AmountRejected(num, d.carat), Carat),
        AmountRejected(num, d.price), Price),
        PercentRejected(num.number(d.color)), Color),
        d.whiteness != "" && PercentRejected(num.number(d.whiteness)), Whiteness),
        d.vepariname == "", Vepariname),
        d.dalalname == "", Dalalname)
  {
    CheckOrderSteps(num, d);
    CheckOrderIsErrorMap(num, d);
  }

  /** `validateForm`: the checks run one after another, each adding its
      message to a fresh error object; the form is valid when none was added. */
  method ValidateForm(num: Numerics, d: Details) returns (errors: map<Field, string>, valid: bool)
    ensures errors == ErrorMap(num, d)
    ensures valid <==> errors == map[]
  {
    errors := map[];
    ghost var e0 := errors;
    if d.roughname == "" || |d.roughname| < 3 {
      errors := errors[Roughname := Message(Roughname)];
    }
    assert errors == Put(e0, d.roughname == "" || |d.roughname| < 3, Roughname);
    ghost var e1 := errors;
    if AmountRejected(num, d.carat) {
      errors := errors[Carat := Message(Carat)];
    }
    assert errors == Put(e1, AmountRejected(num, d.carat), Carat);
    ghost var e2 := errors;
    if AmountRejected(num, d.price) {
      errors := errors[Price := Message(Price)];
    }
    assert errors == Put(e2, AmountRejected(num, d.price), Price);
    ghost var e3 := errors;
    var colorNum := num.number(d.color);
    if PercentRejected(colorNum) {
      errors := errors[Color := Message(Color)];
    }
    assert errors == Put(e3, PercentRejected(colorNum), Color);
    ghost var e4 := errors;
    var whitenessNum := num.number(d.whiteness);
    if d.whiteness != "" && PercentRejected(whitenessNum) {
      errors := errors[Whiteness := Message(Whiteness)];
    }
    assert errors == Put(e4, d.whiteness != "" && PercentRejected(whitenessNum), Whiteness);
    ghost var e5 := errors;
    if d.vepariname == "" {
      errors := errors[Vepariname := Message(Vepariname)];
    }
    assert errors == Put(e5, d.vepariname == "", Vepariname);
    ghost var e6 := errors;
    if d.dalalname == "" {
      errors := errors[Dalalname := Message(Dalalname)];
    }
    assert errors == Put(e6, d.dalalname == "", Dalalname);
    ErrorMapSteps(num, d);
    valid := errors == map[];
  }

  /** An empty colour and an empty whiteness pass their checks: `Number('')`
      is 0, and whiteness is only checked when given. */
  lemma EmptyPercentsAccepted(num: Numerics, d: Details)
    requires NumericsLawful(num) && d.color == "" && d.whiteness == ""
    ensures Color !in ErrorMap(num, d) && Whiteness !in ErrorMap(num, d)
  {
  }

  // ---------------------------------------------------------------------
  // Request body
  // ---------------------------------------------------------------------

  /** The body posted to the rough-diamond endpoint (`None` is `NaN`). */
  datatype Payload = Payload(
    roughName: string, purchasePrice: Option<real>, weightCarat: Option<real>,
    size: string, quality: string, colorPercent: Option<real>, whitenessPercent: real,
    vepariName: string, vepariMobile: string, dalalName: string, dalalMobile: string)

  /** `Number(x) || 0`: `NaN` and 0 both become 0. */
  function NumberOrZero(v: Option<real>): real {
    if v.Some? then v.value else 0.0
  }

  function PayloadOf(num: Numerics, d: Details): Payload {
    Payload(d.roughname, num.number(d.price), num.number(d.carat), d.size, d.quality,
            num.number(d.color), NumberOrZero(num.number(d.whiteness)),
            d.vepariname, d.veparicontact, d.dalalname, d.dalalcontact)
  }

  /** A body built from a form without errors carries a roughname of at
      least three characters, a positive price and carat weight, a colour in
      [0, 100], a whiteness in [0, 100] (0 when empty or unparsable), and
      both contact names. */
  lemma AcceptedPayloadInRange(num: Numerics, d: Details)
    requires NumericsLawful(num) && ErrorMap(num, d) == map[]
    ensures var p := PayloadOf(num, d);
      |p.roughName| >= 3 &&
      p.purchasePrice.Some? && p.purchasePrice.value > 0.0 &&
      p.weightCarat.Some? && p.weightCarat.value > 0.0 &&
      p.colorPercent.Some? && 0.0 <= p.colorPercent.value <= 100.0 &&
      0.0 <= p.whitenessPercent <= 100.0 &&
      p.vepariName != "" && p.dalalName != ""
  {
    assert Roughname !in ErrorMap(num, d) && Carat !in ErrorMap(num, d) && Price !in ErrorMap(num, d);
    assert Color !in ErrorMap(num, d) && Whiteness !in ErrorMap(num, d);
    assert Vepariname !in ErrorMap(num, d) && Dalalname !in ErrorMap(num, d);
  }

  /** The mobile a contact dropdown writes: that of the first list entry with
      the chosen name, or '' when there is none (or its mobile is empty). */
  function ContactMobile(list: seq<Contact>, name: string): (r: string)
    ensures (forall i :: 0 <= i < |list| ==> list[i].name != name) ==> r == ""
    ensures forall i :: 0 <= i < |list| && list[i].name == name && (forall j :: 0 <= j < i ==> list[j].name != name) ==>
      r == list[i].mobile
  {
    match Find((c: Contact) => c.name == name, list)
    case None => ""
    case Some(c) => c.mobile
  }

  // ---------------------------------------------------------------------
  // The tab
  // ---------------------------------------------------------------------

  datatype Reply = Reply(httpOk: bool, success: bool, message: string)

  datatype Problem = Invalid | NoToken | Rejected(message: string) | RequestFailed

  const DefaultFailure: string := "રફ ડાયમંડ ઉમેરવામાં એરર આવી"

  class DiamondDetailsScreen {
    const num: Numerics
    const store: FormStore
    const tabs: TabSection
    var authToken: Option<string>
    var vepariList: seq<Contact>
    var dalalList: seq<Contact>
    var dropdownError: Option<string>

    /** The token effect: a stored, non-empty token is kept; otherwise the
        dropdowns show the "please log in" error. */
    constructor (num: Numerics, store: FormStore, tabs: TabSection, storedToken: Option<string>)
      ensures this.num == num && this.store == store && this.tabs == tabs
      ensures vepariList == [] && dalalList == []
      ensures storedToken.Some? && storedToken.value != "" ==> authToken == storedToken && dropdownError == None
      ensures !(storedToken.Some? && storedToken.value != "") ==>
        authToken == None && dropdownError == Some("Authentication token not found. Please log in.")
    {
      this.num := num;
      this.store := store;
      this.tabs := tabs;
      vepariList := [];
      dalalList := [];
      if storedToken.Some? && storedToken.value != "" {
        authToken := storedToken;
        dropdownError := None;
      } else {
        authToken := None;
        dropdownError := Some("Authentication token not found. Please log in.");
      }
    }

    /** The list effect, which runs only with a token: veparis are fetched
        first, and a failure there stops before the dalals are fetched. */
    method FetchLists(vepariReply: Outcome<seq<Contact>>, dalalReply: Outcome<seq<Contact>>)
      modifies this`vepariList, this`dalalList, this`dropdownError
      ensures authToken.None? ==> unchanged(this)
      ensures authToken.Some? && vepariReply.Failed? ==>
        vepariList == old(vepariList) && dalalList == old(dalalList) &&
        dropdownError == Some("Failed to load contact lists: " + vepariReply.message)
      ensures authToken.Some? && vepariReply.Ok? && dalalReply.Failed? ==>
        vepariList == vepariReply.payload && dalalList == old(dalalList) &&
        dropdownError == Some("Failed to load contact lists: " + dalalReply.message)
      ensures authToken.Some? && vepariReply.Ok? && dalalReply.Ok? ==>
        vepariList == vepariReply.payload && dalalList == dalalReply.payload && dropdownError == None
    {
      if authToken.None? {
        return;
      }
      dropdownError := None;
      match vepariReply
      case Failed(msg) =>
        dropdownError := Some("Failed to load contact lists: " + msg);
      case Ok(veparis) =>
        vepariList := veparis;
        match dalalReply
        case Failed(msg) =>
          dropdownError := Some("Failed to load contact lists: " + msg);
        case Ok(dalals) =>
          dalalList := dalals;
    }

    /** Choosing a vepari: the name is stored, a pending vepari error is
        cleared to '', and the contact field takes that vepari's mobile. */
    method ChooseVepari(value: string)
      requires store.Valid()
      modifies store`formData, store`errors
      ensures store.Valid()
      ensures store.formData == old(store.formData)[Vepariname := Text(value)][Veparicontact := Text(ContactMobile(vepariList, value))]
      ensures store.errors == if Vepariname in old(store.errors) && old(store.errors)[Vepariname] != ""
                              then old(store.errors)[Vepariname := ""] else old(store.errors)
    {
      store.UpdateFormData(Vepariname, Text(value));
      if Vepariname in store.errors && store.errors[Vepariname] != "" {
        store.SetErrors(store.errors[Vepariname := ""]);
      }
      store.UpdateFormData(Veparicontact, Text(ContactMobile(vepariList, value)));
    }

    /** Choosing a dalal, the same rule for the dalal fields. */
    method ChooseDalal(value: string)
      requires store.Valid()
      modifies store`formData, store`errors
      ensures store.Valid()
      ensures store.formData == old(store.formData)[Dalalname := Text(value)][Dalalcontact := Text(ContactMobile(dalalList, value))]
      ensures store.errors == if Dalalname in old(store.errors) && old(store.errors)[Dalalname] != ""
                              then old(store.errors)[Dalalname := ""] else old(store.errors)
    {
      store.UpdateFormData(Dalalname, Text(value));
      if Dalalname in store.errors && store.errors[Dalalname] != "" {
        store.SetErrors(store.errors[Dalalname := ""]);
      }
      store.UpdateFormData(Dalalcontact, Text(ContactMobile(dalalList, value)));
    }

    /** `handleSubmit`: the checks' error map replaces the store's; an
        invalid form or a missing token sends nothing; otherwise the body is
        sent and the tab is marked complete only when the response is ok and
        says `success`. */
    method HandleSubmit(reply: Outcome<Reply>) returns (sent: Option<Payload>, notice: Notice<Problem>)
      requires store.Valid()
      modifies store`errors, tabs`completedTabs
      ensures var d := DetailsOf(store.formData);
        store.errors == ErrorMap(num, d) &&
        (if ErrorMap(num, d) != map[] then
           sent == None && notice == Refused(Invalid) && tabs.completedTabs == old(tabs.completedTabs)
         else if authToken.None? then
           sent == None && notice == Refused(NoToken) && tabs.completedTabs == old(tabs.completedTabs)
         else
           sent == Some(PayloadOf(num, d)) &&
           (if reply.Ok? && reply.payload.httpOk && reply.payload.success then
              notice == Confirmed && tabs.completedTabs == Mark(old(tabs.completedTabs), "diamond-details")
            else
              tabs.completedTabs == old(tabs.completedTabs) &&
              notice == (if reply.Failed? then Refused(RequestFailed)
                         else if reply.payload.message != "" then Refused(Rejected(reply.payload.message))
                         else Refused(Rejected(DefaultFailure)))))
    {
      var d := DetailsOf(store.formData);
      var errors, valid := ValidateForm(num, d);
      store.SetErrors(errors);
      if !valid {
        return None, Refused(Invalid);
      }
      if authToken.None? {
        return None, Refused(NoToken);
      }
      sent := Some(PayloadOf(num, d));
      match reply
      case Failed(_) =>
        notice := Refused(RequestFailed);
      case Ok(body) =>
        if body.httpOk && body.success {
          tabs.MarkTabComplete("diamond-details");
          notice := Confirmed;
        } else if body.message != "" {
          notice := Refused(Rejected(body.message));
        } else {
          notice := Refused(Rejected(DefaultFailure));
        }
    }
  }
}
