/** The vepari (trader) and dalal (broker) contact lists of
    `components/forms/TransactionForm.tsx`: each list is replaced after an
    add (append), an edit (replace by id) or a delete (remove by id), and the
    server round trip of each is an input. */
module Contacts {
  import opened Common

  datatype Contact = Contact(id: int, name: string, mobile: string)

  /** Which of the two lists an action is about. */
  datatype Kind = Vepari | Dalal

  /** The word used in the endpoint and in the fallback messages. */
  function KindName(k: Kind): string {
    match k
    case Vepari => "vepari"
    case Dalal => "dalal"
  }

  const NoTokenFound := "No authentication token found. Please log in."
  const TokenMissing := "Authentication token is missing."
  const EmptyEntry := "Name and mobile cannot be empty."
  const FetchFailed := "Failed to fetch contacts"

  /** The text an add, update or delete failure leaves in `error`, for
      `verb` one of "add", "update", "delete". */
  function FailureText(k: Kind, verb: string, message: string): (r: string)
    ensures r != ""
    ensures message != "" ==> r == message
  {
    MessageOr(message, "Failed to " + verb + " " + KindName(k))
  }

  /** The message a failed `fetchContacts` leaves: the vepari reply's, else
      the dalal reply's, else the fallback. */
  function FetchFailure(vepariReply: Outcome<seq<Contact>>, dalalReply: Outcome<seq<Contact>>): (r: string)
    ensures r != ""
    ensures vepariReply.Failed? && vepariReply.message != "" ==> r == vepariReply.message
    ensures !(vepariReply.Failed? && vepariReply.message != "") && dalalReply.Failed? && dalalReply.message != "" ==>
              r == dalalReply.message
    ensures !(vepariReply.Failed? && vepariReply.message != "") && !(dalalReply.Failed? && dalalReply.message != "") ==>
              r == FetchFailed
  {
    MessageOr(if vepariReply.Failed? then vepariReply.message else "",
              MessageOr(if dalalReply.Failed? then dalalReply.message else "", FetchFailed))
  }

  /** The form entry after trimming, or `None` when either field is then
      empty. */
  function CheckEntry(name: string, mobile: string): (r: Option<(string, string)>)
    ensures r.None? <==> Trim(name) == "" || Trim(mobile) == ""
    ensures r.Some? ==> r.value == (Trim(name), Trim(mobile))
  {
    if Trim(name) == "" || Trim(mobile) == "" then None else Some((Trim(name), Trim(mobile)))
  }

  /** The entry is refused exactly when the name or the mobile is nothing
      but white space; an accepted entry has white space at neither end. */
  lemma CheckEntryBlank(name: string, mobile: string)
    ensures CheckEntry(name, mobile).None? <==> AllWhitespace(name) || AllWhitespace(mobile)
    ensures CheckEntry(name, mobile).Some? ==>
              var e := CheckEntry(name, mobile).value;
              !IsWhitespace(e.0[0]) && !IsWhitespace(e.0[|e.0| - 1]) &&
              !IsWhitespace(e.1[0]) && !IsWhitespace(e.1[|e.1| - 1])
  {
    TrimEmptyIffBlank(name);
    TrimEmptyIffBlank(mobile);
    if CheckEntry(name, mobile).Some? {
      TrimEnds(name);
      TrimEnds(mobile);
    }
  }

  /** `list.map(c => c.id === updated.id ? updated : c)`. */
  function ReplaceById(list: seq<Contact>, updated: Contact): (r: seq<Contact>)
    ensures |r| == |list|
    ensures forall i :: 0 <= i < |list| && list[i].id == updated.id ==> r[i] == updated
    ensures forall i :: 0 <= i < |list| && list[i].id != updated.id ==> r[i] == list[i]
  {
    if list == [] then []
    else [if list[0].id == updated.id then updated else list[0]] + ReplaceById(list[1..], updated)
  }

  /** The ids of a list, in order. */
  function Ids(list: seq<Contact>): (r: seq<int>)
    ensures |r| == |list| && forall i :: 0 <= i < |list| ==> r[i] == list[i].id
  {
    seq(|list|, i requires 0 <= i < |list| => list[i].id)
  }

  /** An edit keeps the ids in their places: no contact moves, appears or
      disappears, and the list keeps its order. */
  lemma EditKeepsIds(list: seq<Contact>, updated: Contact)
    ensures Ids(ReplaceById(list, updated)) == Ids(list)
  {
    var r := ReplaceById(list, updated);
    assert forall i :: 0 <= i < |list| ==> Ids(r)[i] == Ids(list)[i] by {
      forall i | 0 <= i < |list| ensures Ids(r)[i] == Ids(list)[i] {
        if list[i].id == updated.id { assert r[i] == updated; } else { assert r[i] == list[i]; }
      }
    }
  }

  /** After an edit of a contact that is listed, the list holds the new
      version and no other contact with that id. */
  lemma EditPlacesContact(list: seq<Contact>, updated: Contact)
    ensures (exists i :: 0 <= i < |list| && list[i].id == updated.id) ==> updated in ReplaceById(list, updated)
    ensures forall x :: x in ReplaceById(list, updated) && x.id == updated.id ==> x == updated
  {
    var r := ReplaceById(list, updated);
    if exists i :: 0 <= i < |list| && list[i].id == updated.id {
      var i :| 0 <= i < |list| && list[i].id == updated.id;
      assert r[i] == updated;
    }
    forall x | x in r && x.id == updated.id ensures x == updated {
      var i :| 0 <= i < |r| && r[i] == x;
    }
  }

  /** Editing a contact whose id is not listed changes nothing, and
      editing twice is editing once. */
  lemma EditAbsentAndTwice(list: seq<Contact>, updated: Contact)
    ensures (forall i :: 0 <= i < |list| ==> list[i].id != updated.id) ==> ReplaceById(list, updated) == list
    ensures ReplaceById(ReplaceById(list, updated), updated) == ReplaceById(list, updated)
  {
    var r := ReplaceById(list, updated);
    var rr := ReplaceById(r, updated);
    assert forall i :: 0 <= i < |list| ==> rr[i] == r[i] by {
      forall i | 0 <= i < |list| ensures rr[i] == r[i] {
        if list[i].id == updated.id { assert r[i] == updated; } else { assert r[i] == list[i]; }
      }
    }
  }

  /** The predicate `c => c.id !== id` of the delete handler. */
  function OtherId(id: int): Contact -> bool {
    (c: Contact) => c.id != id
  }

  /** `list.filter(c => c.id !== id)`. */
  function RemoveById(list: seq<Contact>, id: int): (r: seq<Contact>)
    ensures forall c :: c in r <==> c in list && c.id != id
  {
    Filter(OtherId(id), list)
  }

  /** Deleting an id nobody has changes nothing, and deleting twice is
      deleting once. */
  lemma DeleteAbsentAndTwice(list: seq<Contact>, id: int)
    ensures (forall i :: 0 <= i < |list| ==> list[i].id != id) ==> RemoveById(list, id) == list
    ensures RemoveById(RemoveById(list, id), id) == RemoveById(list, id)
  {
    if forall i :: 0 <= i < |list| ==> list[i].id != id {
      FilterKeepsAll(OtherId(id), list);
    }
    var r := RemoveById(list, id);
    assert forall i :: 0 <= i < |r| ==> r[i].id != id by {
      forall i | 0 <= i < |r| ensures r[i].id != id { assert r[i] in r; }
    }
    FilterKeepsAll(OtherId(id), r);
  }

  /** Delete and append commute when the appended contact has another id:
      deleting removes exactly the contacts with the id, wherever they are. */
  lemma DeleteAfterAdd(list: seq<Contact>, added: Contact, id: int)
    ensures RemoveById(list + [added], id) ==
            RemoveById(list, id) + (if added.id != id then [added] else [])
  {
    FilterAppend(OtherId(id), list, [added]);
    assert [added][1..] == [];
  }

  /** The list after a successful save: with a contact being edited, that
      id now carries the trimmed entry; otherwise the contact the server
      returned is appended. */
  function AfterSave(list: seq<Contact>, editing: Option<Contact>, entry: (string, string), added: Contact): (r: seq<Contact>)
    ensures editing.Some? ==> r == ReplaceById(list, Contact(editing.value.id, entry.0, entry.1))
    ensures editing.None? ==> r == list + [added]
  {
    match editing
    case Some(c) => ReplaceById(list, Contact(c.id, entry.0, entry.1))
    case None => list + [added]
  }

  class ContactBook {
    var veparis: seq<Contact>
    var dalals: seq<Contact>
    var modalOpen: bool
    var contactType: Kind
    var editing: Option<Contact>
    var formName: string
    var formMobile: string
    var error: Option<string>
    var authToken: Option<string>

    /** The list a kind selects. */
    function List(k: Kind): (r: seq<Contact>)
      reads this
      ensures r == if k == Vepari then veparis else dalals
    {
      match k
      case Vepari => veparis
      case Dalal => dalals
    }

    /** `!authToken` is false: a non-empty token is held. */
    predicate HasToken()
      reads this
    {
      authToken.Some? && authToken.value != ""
    }

    /** Mounting reads the stored token; without one the error banner asks
        the user to log in. */
    constructor (storedToken: Option<string>)
      ensures veparis == [] && dalals == [] && !modalOpen && contactType == Vepari && editing == None
      ensures formName == "" && formMobile == ""
      ensures storedToken.Some? && storedToken.value != "" ==> authToken == storedToken && error == None
      ensures !(storedToken.Some? && storedToken.value != "") ==> authToken == None && error == Some(NoTokenFound)
    {
      veparis := [];
      dalals := [];
      modalOpen := false;
      contactType := Vepari;
      editing := None;
      formName := "";
      formMobile := "";
      if storedToken.Some? && storedToken.value != "" {
        authToken := storedToken;
        error := None;
      } else {
        authToken := None;
        error := Some(NoTokenFound);
      }
    }

    /** `fetchContacts`: nothing without a token; both lists replaced when
        both requests succeed; otherwise the first failure's message (or the
        fallback) and the lists as they were. */
    method FetchContacts(vepariReply: Outcome<seq<Contact>>, dalalReply: Outcome<seq<Contact>>)
      modifies this`veparis, this`dalals, this`error
      ensures !HasToken() ==> unchanged(this)
      ensures HasToken() && vepariReply.Ok? && dalalReply.Ok? ==>
                veparis == vepariReply.payload && dalals == dalalReply.payload && error == None
      ensures HasToken() && !(vepariReply.Ok? && dalalReply.Ok?) ==>
                veparis == old(veparis) && dalals == old(dalals) &&
                error == Some(FetchFailure(vepariReply, dalalReply))
    {
      if !HasToken() {
        return;
      }
      error := None;
      if vepariReply.Ok? && dalalReply.Ok? {
        veparis := vepariReply.payload;
        dalals := dalalReply.payload;
      } else {
        error := Some(FetchFailure(vepariReply, dalalReply));
      }
    }

    /** `openAddModal`: an empty form for a new contact of that kind. */
    method OpenAddModal(k: Kind)
      modifies this`contactType, this`editing, this`formName, this`formMobile, this`error, this`modalOpen
      ensures contactType == k && editing == None && formName == "" && formMobile == ""
      ensures error == None && modalOpen
    {
      contactType := k;
      editing := None;
      formName := "";
      formMobile := "";
      error := None;
      modalOpen := true;
    }

    /** `openEditModal`: the form holds the chosen contact's fields. */
    method OpenEditModal(c: Contact, k: Kind)
      modifies this`contactType, this`editing, this`formName, this`formMobile, this`error, this`modalOpen
      ensures contactType == k && editing == Some(c) && formName == c.name && formMobile == c.mobile
      ensures error == None && modalOpen
    {
      contactType := k;
      editing := Some(c);
      formName := c.name;
      formMobile := c.mobile;
      error := None;
      modalOpen := true;
    }

    /** Typing into the modal's two inputs. */
    method EditForm(name: string, mobile: string)
      modifies this`formName, this`formMobile
      ensures formName == name && formMobile == mobile
    {
      formName := name;
      formMobile := mobile;
    }

    /** `saveContact`. A blank name or mobile is refused before any request;
        without a token the request is never made; a failed request leaves
        both lists and the open modal as they were. On success the list of
        the current kind gets the edited contact in place (the server's
        reply is ignored) or the server's new contact at its end, the other
        list is untouched, and the modal closes. */
    method SaveContact(reply: Outcome<Contact>) returns (requested: bool, saved: bool)
      modifies this`veparis, this`dalals, this`error, this`modalOpen
      ensures requested <==> CheckEntry(formName, formMobile).Some? && HasToken()
      ensures saved <==> requested && reply.Ok?
      ensures CheckEntry(formName, formMobile).None? ==> error == Some(EmptyEntry)
      ensures CheckEntry(formName, formMobile).Some? && !HasToken() ==> error == Some(TokenMissing)
      ensures requested && reply.Failed? ==>
                error == Some(FailureText(contactType, if editing.Some? then "update" else "add", reply.message))
      ensures !saved ==> veparis == old(veparis) && dalals == old(dalals) && modalOpen == old(modalOpen)
      ensures saved ==> error == None && !modalOpen
      ensures saved && contactType == Vepari ==>
                veparis == AfterSave(old(veparis), editing, CheckEntry(formName, formMobile).value, reply.payload) &&
                dalals == old(dalals)
      ensures saved && contactType == Dalal ==>
                dalals == AfterSave(old(dalals), editing, CheckEntry(formName, formMobile).value, reply.payload) &&
                veparis == old(veparis)
    {
      requested, saved := false, false;
      var entry := CheckEntry(formName, formMobile);
      if entry.None? {
        error := Some(EmptyEntry);
        return;
      }
      error := None;
      if !HasToken() {
        error := Some(TokenMissing);
        return;
      }
      requested := true;
      if reply.Failed? {
        error := Some(FailureText(contactType, if editing.Some? then "update" else "add", reply.message));
        return;
      }
      if contactType == Vepari {
        veparis := AfterSave(veparis, editing, entry.value, reply.payload);
      } else {
        dalals := AfterSave(dalals, editing, entry.value, reply.payload);
      }
      modalOpen := false;
      saved := true;
    }

    /** `handleDeleteContact`: on success every contact with the id leaves
        the chosen list, and only that list; on failure, or without a token,
        nothing but the error changes. */
    method DeleteContact(id: int, k: Kind, reply: Outcome<()>) returns (requested: bool, deleted: bool)
      modifies this`veparis, this`dalals, this`error
      ensures requested <==> HasToken()
      ensures deleted <==> requested && reply.Ok?
      ensures !HasToken() ==> error == Some(TokenMissing) && unchanged(this`veparis, this`dalals)
      ensures requested && reply.Failed? ==>
                error == Some(FailureText(k, "delete", reply.message)) && unchanged(this`veparis, this`dalals)
      ensures deleted ==> error == None
      ensures deleted ==> List(k) == RemoveById(old(List(k)), id)
      ensures deleted ==> List(if k == Vepari then Dalal else Vepari) == old(List(if k == Vepari then Dalal else Vepari))
    {
      requested, deleted := false, false;
      error := None;
      if !HasToken() {
        error := Some(TokenMissing);
        return;
      }
      requested := true;
      if reply.Failed? {
        error := Some(FailureText(k, "delete", reply.message));
        return;
      }
      if k == Vepari {
        veparis := RemoveById(veparis, id);
      } else {
        dalals := RemoveById(dalals, id);
      }
      deleted := true;
    }

    /** `saveContact` followed by the render it causes, as the component is
        written: the fetch effect lists `getAuthHeaders` among its
        dependencies, and that closure is created anew on every render, so
        the effect runs again after the save. With a token held that run
        clears the error and reads both lists from the server again, so the
        message of a refused or failed save does not stay on screen. When
        that fetch fails, or no token is held, the lists stay as the save
        left them. */
    method SaveContactAsWritten(reply: Outcome<Contact>, vepariReply: Outcome<seq<Contact>>, dalalReply: Outcome<seq<Contact>>)
      returns (requested: bool, saved: bool)
      modifies this`veparis, this`dalals, this`error, this`modalOpen
      ensures requested <==> CheckEntry(formName, formMobile).Some? && HasToken()
      ensures saved <==> requested && reply.Ok?
      ensures HasToken() && vepariReply.Ok? && dalalReply.Ok? ==>
                error == None && veparis == vepariReply.payload && dalals == dalalReply.payload
      ensures HasToken() && !(vepariReply.Ok? && dalalReply.Ok?) ==> error == Some(FetchFailure(vepariReply, dalalReply))
      ensures !HasToken() ==> error == Some(if CheckEntry(formName, formMobile).None? then EmptyEntry else TokenMissing)
      ensures saved ==> !modalOpen
      ensures !saved ==> modalOpen == old(modalOpen)
      ensures !(HasToken() && vepariReply.Ok? && dalalReply.Ok?) ==>
                veparis == (if saved && contactType == Vepari
                            then AfterSave(old(veparis), editing, CheckEntry(formName, formMobile).value, reply.payload)
                            else old(veparis)) &&
                dalals == (if saved && contactType == Dalal
                           then AfterSave(old(dalals), editing, CheckEntry(formName, formMobile).value, reply.payload)
                           else old(dalals))
    {
      requested, saved := SaveContact(reply);
      FetchContacts(vepariReply, dalalReply);
    }

    /** `handleDeleteContact` followed by the render it causes, as written:
        with a token held the effect that runs next clears the error of a
        failed delete and replaces both lists by the server's; when that
        fetch fails, or no token is held, the lists stay as the delete left
        them. */
    method DeleteContactAsWritten(id: int, k: Kind, reply: Outcome<()>, vepariReply: Outcome<seq<Contact>>, dalalReply: Outcome<seq<Contact>>)
      returns (requested: bool, deleted: bool)
      modifies this`veparis, this`dalals, this`error
      ensures requested <==> HasToken()
      ensures deleted <==> requested && reply.Ok?
      ensures HasToken() && vepariReply.Ok? && dalalReply.Ok? ==>
                error == None && veparis == vepariReply.payload && dalals == dalalReply.payload
      ensures HasToken() && !(vepariReply.Ok? && dalalReply.Ok?) ==> error == Some(FetchFailure(vepariReply, dalalReply))
      ensures !HasToken() ==> error == Some(TokenMissing)
      ensures !(HasToken() && vepariReply.Ok? && dalalReply.Ok?) ==>
                List(k) == (if deleted then RemoveById(old(List(k)), id) else old(List(k))) &&
                List(if k == Vepari then Dalal else Vepari) == old(List(if k == Vepari then Dalal else Vepari))
    {
      requested, deleted := DeleteContact(id, k, reply);
      FetchContacts(vepariReply, dalalReply);
    }
  }
}
