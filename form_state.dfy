/** The wizard's shared field store (`context/FormContext.tsx`): one record of
    24 fields updated one key at a time, an error map written by the forms'
    validators, and the set of touched fields that gates error display. */
module FormState {
  import opened Common

  /** The keys of the record, one per field of `DiamondData`. */
  datatype Field =
    | Roughname | Carat | Price | Color | Size | Quality | Whiteness
    | Veparicontact | Vepariname | Dalalname | Dalalcontact
    | OfficeName | Weight | SizeOffice | NungCount | Sendingdate
    | OfficeNameFinal | Roughnamefinal | Submitdate
    | Topi | Patti | Simcard | Totalweight | Finalsize

  const AllFields: set<Field> := {
    Roughname, Carat, Price, Color, Size, Quality, Whiteness,
    Veparicontact, Vepariname, Dalalname, Dalalcontact,
    OfficeName, Weight, SizeOffice, NungCount, Sendingdate,
    OfficeNameFinal, Roughnamefinal, Submitdate,
    Topi, Patti, Simcard, Totalweight, Finalsize
  }

  lemma AllFieldsComplete(f: Field)
    ensures f in AllFields
  {
  }

  /** A field value as the record can hold it: `updateFormData` accepts any
      value, so a numeric field may hold the text typed into its input. */
  datatype Value = Text(s: string) | Number(n: real) | Undefined | Moment(iso: string)

  /** JavaScript truthiness of a field value (a date object is truthy). */
  predicate Truthy(v: Value) {
    match v
    case Text(s) => s != ""
    case Number(n) => n != 0.0
    case Undefined => false
    case Moment(_) => true
  }

  /** The value a field starts with and is reset to: the two dates start
      undefined, the four weights 0, everything else the empty string. */
  function InitialValue(f: Field): (v: Value)
    ensures !Truthy(v)
  {
    if f in {Sendingdate, Submitdate} then Undefined
    else if f in {Topi, Patti, Simcard, Totalweight} then Number(0.0)
    else Text("")
  }

  function InitialData(): (d: map<Field, Value>)
    ensures forall f :: f in d && d[f] == InitialValue(f)
  {
    var d := map f | f in AllFields :: InitialValue(f);
    assert forall f :: f in d by {
      forall f ensures f in d { AllFieldsComplete(f); }
    }
    d
  }

  /** No field of the initial record is truthy, so no form sees a value it
      did not receive from the user. */
  lemma InitialDataBlank(f: Field)
    ensures f in InitialData() && !Truthy(InitialData()[f])
  {
  }

  /** `renderError`: the message is shown exactly when the field has been
      touched and its error is a non-empty string. */
  function ShownError(errors: map<Field, string>, touched: set<Field>, f: Field): (r: Option<string>)
    ensures r.Some? <==> f in touched && f in errors && errors[f] != ""
    ensures r.Some? ==> r.value == errors[f]
  {
    if f !in touched || f !in errors || errors[f] == "" then None else Some(errors[f])
  }

  /** An error on an untouched field is never shown, and clearing a field's
      error to '' hides it. */
  lemma ShownErrorNeedsTouchAndText(errors: map<Field, string>, touched: set<Field>, f: Field)
    ensures f !in touched ==> ShownError(errors, touched, f).None?
    ensures ShownError(errors[f := ""], touched, f).None?
    ensures forall g :: g != f ==> ShownError(errors[f := ""], touched, g) == ShownError(errors, touched, g)
  {
  }

  /** With nothing touched no error is ever shown; no form in the wizard
      adds to the touched set, so only the red borders signal errors. */
  lemma NothingTouchedNothingShown(errors: map<Field, string>, f: Field)
    ensures ShownError(errors, {}, f) == None
  {
  }

  class FormStore {
    var formData: map<Field, Value>
    var errors: map<Field, string>
    var touchedFields: set<Field>

    /** Every field of the record is present. */
    ghost predicate Valid()
      reads this`formData
    {
      forall f :: f in formData
    }

    /** The provider starts with the initial record, no errors and nothing
        touched. */
    constructor ()
      ensures Valid()
      ensures formData == InitialData() && errors == map[] && touchedFields == {}
    {
      formData := InitialData();
      errors := map[];
      touchedFields := {};
    }

    /** `updateFormData(key, value)`: that field now holds the value; every
        other field is as it was. */
    method UpdateFormData(key: Field, value: Value)
      requires Valid()
      modifies this`formData
      ensures Valid()
      ensures formData == old(formData)[key := value]
      ensures formData[key] == value
      ensures forall f :: f != key ==> formData[f] == old(formData)[f]
    {
      formData := formData[key := value];
    }

    /** `resetFormData`: back to exactly the initial record. */
    method ResetFormData()
      modifies this`formData
      ensures Valid() && formData == InitialData()
    {
      formData := InitialData();
    }

    method SetErrors(e: map<Field, string>)
      modifies this`errors
      ensures errors == e
    {
      errors := e;
    }

    method SetTouchedFields(t: set<Field>)
      modifies this`touchedFields
      ensures touchedFields == t
    {
      touchedFields := t;
    }

    function RenderError(f: Field): (r: Option<string>)
      reads this
      ensures r == ShownError(errors, touchedFields, f)
    {
      ShownError(errors, touchedFields, f)
    }

    /** The store's `markTabComplete` only logs: no state changes. */
    method MarkTabComplete(tabName: string)
      ensures unchanged(this)
    {
    }
  }
}
