/**
 * The list logic of the patients page (src/app/patients/page.tsx): the
 * search filter, the edit form and its overlay, and what saving, deleting
 * and adding a patient do to the page's list and selection.  The outcome of
 * each request to the patients API is a parameter.
 */
module PatientsPage {
  import opened Wrappers
  import opened Text
  import Seqs

  datatype Address = Address(address1: Option<string>, city: Option<string>, state: Option<string>, zip: Option<string>)

  /** The page's `Patient`: an id and optional fields, the address possibly also nested. */
  datatype Patient = Patient(
    id: string,
    firstName: Option<string>,
    lastName: Option<string>,
    dob: Option<string>,
    sex: Option<string>,
    email1: Option<string>,
    phoneMobile: Option<string>,
    address1: Option<string>,
    city: Option<string>,
    state: Option<string>,
    zip: Option<string>,
    nicknames: Option<string>,
    address: Option<Address>)

  /** The edit form, a `Partial<Patient>` over the fields the form edits; `None` is an absent key. */
  datatype EditForm = EditForm(
    firstName: Option<string>,
    lastName: Option<string>,
    email1: Option<string>,
    phoneMobile: Option<string>,
    address1: Option<string>,
    city: Option<string>,
    state: Option<string>,
    zip: Option<string>)

  const EmptyForm := EditForm(None, None, None, None, None, None, None, None)

  /** The add form, whose four fields are always strings. */
  datatype NewPatient = NewPatient(firstName: string, lastName: string, dob: string, sex: string)

  const EmptyNewPatient := NewPatient("", "", "", "")

  /** A field JavaScript treats as true: present and not the empty string. */
  predicate Filled(s: Option<string>) {
    s.Some? && s.value != ""
  }

  // ---------------------------------------------------------------------
  // Edit form
  // ---------------------------------------------------------------------

  /**
   * `top || nested || ''`: the top-level value when it is filled, else the
   * nested one when filled, else the empty string.
   */
  function Fallback(top: Option<string>, nested: Option<string>): (r: string)
    ensures Filled(top) ==> r == top.value
    ensures !Filled(top) && Filled(nested) ==> r == nested.value
    ensures r != "" <==> Filled(top) || Filled(nested)
  {
    if Filled(top) then top.value
    else if Filled(nested) then nested.value
    else ""
  }

  function NestedAddress1(p: Patient): Option<string> {
    if p.address.Some? then p.address.value.address1 else None
  }

  function NestedCity(p: Patient): Option<string> {
    if p.address.Some? then p.address.value.city else None
  }

  function NestedState(p: Patient): Option<string> {
    if p.address.Some? then p.address.value.state else None
  }

  function NestedZip(p: Patient): Option<string> {
    if p.address.Some? then p.address.value.zip else None
  }

  /**
   * The form the page fills in when a patient is selected: every field set;
   * names, e-mail and mobile from the patient or `""`; the address fields
   * from the top level, else from the nested address, else `""`.
   */
  function InitEditForm(p: Patient): (r: EditForm)
    ensures r.firstName == Some(p.firstName.GetOr(""))
    ensures r.lastName == Some(p.lastName.GetOr(""))
    ensures r.email1 == Some(p.email1.GetOr(""))
    ensures r.phoneMobile == Some(p.phoneMobile.GetOr(""))
    ensures r.address1 == Some(Fallback(p.address1, NestedAddress1(p)))
    ensures r.city == Some(Fallback(p.city, NestedCity(p)))
    ensures r.state == Some(Fallback(p.state, NestedState(p)))
    ensures r.zip == Some(Fallback(p.zip, NestedZip(p)))
  {
    EditForm(
      Some(Fallback(p.firstName, None)),
      Some(Fallback(p.lastName, None)),
      Some(Fallback(p.email1, None)),
      Some(Fallback(p.phoneMobile, None)),
      Some(Fallback(p.address1, NestedAddress1(p))),
      Some(Fallback(p.city, NestedCity(p))),
      Some(Fallback(p.state, NestedState(p))),
      Some(Fallback(p.zip, NestedZip(p))))
  }

  /** `{ ...patient, ...form }`: a key present in the form wins, every other field is the patient's. */
  function Overlay(p: Patient, form: EditForm): (r: Patient)
    ensures r.id == p.id && r.dob == p.dob && r.sex == p.sex
    ensures r.nicknames == p.nicknames && r.address == p.address
    ensures r.firstName == form.firstName.OrElse(p.firstName)
    ensures r.lastName == form.lastName.OrElse(p.lastName)
    ensures r.email1 == form.email1.OrElse(p.email1)
    ensures r.phoneMobile == form.phoneMobile.OrElse(p.phoneMobile)
    ensures r.address1 == form.address1.OrElse(p.address1)
    ensures r.city == form.city.OrElse(p.city)
    ensures r.state == form.state.OrElse(p.state)
    ensures r.zip == form.zip.OrElse(p.zip)
  {
    p.(firstName := form.firstName.OrElse(p.firstName),
       lastName := form.lastName.OrElse(p.lastName),
       email1 := form.email1.OrElse(p.email1),
       phoneMobile := form.phoneMobile.OrElse(p.phoneMobile),
       address1 := form.address1.OrElse(p.address1),
       city := form.city.OrElse(p.city),
       state := form.state.OrElse(p.state),
       zip := form.zip.OrElse(p.zip))
  }

  /** The empty form, before any patient was selected, changes nothing when overlaid. */
  lemma EmptyFormOverlaysNothing(p: Patient)
    ensures Overlay(p, EmptyForm) == p
  {
  }

  /**
   * Saving an untouched form is idempotent: once a patient has been saved
   * through its own initial form, saving again through the form the page
   * fills in for the saved patient changes nothing.
   */
  lemma UntouchedSaveIsIdempotent(p: Patient)
    ensures var saved := Overlay(p, InitEditForm(p));
            Overlay(saved, InitEditForm(saved)) == saved
  {
    var saved := Overlay(p, InitEditForm(p));
    var again := Overlay(saved, InitEditForm(saved));
    assert again.address1 == saved.address1;
    assert again.city == saved.city;
    assert again.state == saved.state;
    assert again.zip == saved.zip;
  }

  // ---------------------------------------------------------------------
  // Search
  // ---------------------------------------------------------------------

  datatype SearchMode = All | ByName | ById | ByNickname

  /** `searchQuery.toLowerCase().trim()`. */
  function NormalizedQuery(query: string): string {
    Trim(Lower(query))
  }

  /** `` `${first_name || ''} ${last_name || ''}` ``. */
  function FullName(p: Patient): string {
    p.firstName.GetOr("") + " " + p.lastName.GetOr("")
  }

  /** The search predicate for a normalised query. */
  predicate Matches(p: Patient, mode: SearchMode, query: string) {
    match mode
    case ByName => Contains(Lower(FullName(p)), query)
    case ById => Contains(Lower(p.id), query)
    case ByNickname => Contains(Lower(p.nicknames.GetOr("")), query)
    case All =>
      || Contains(Lower(FullName(p)), query)
      || Contains(Lower(p.id), query)
      || Contains(Lower(p.nicknames.GetOr("")), query)
      || Contains(Lower(p.email1.GetOr("")), query)
      || Contains(Lower(p.phoneMobile.GetOr("")), query)
  }

  /**
   * `filteredPatients`: a blank query shows the whole list; otherwise the
   * patients matching the normalised query, in their original order.
   */
  function FilterPatients(patients: seq<Patient>, query: string, mode: SearchMode): (r: seq<Patient>)
    ensures IsBlank(query) ==> r == patients
    ensures Seqs.IsSubsequence(r, patients)
    ensures !IsBlank(query) ==> forall i :: 0 <= i < |r| ==> Matches(r[i], mode, NormalizedQuery(query))
    ensures forall i :: 0 <= i < |patients| && Matches(patients[i], mode, NormalizedQuery(query)) ==> patients[i] in r
  {
    if IsBlank(query) then
      Seqs.SubsequenceOfItself(patients);
      patients
    else Seqs.Filter(patients, p => Matches(p, mode, NormalizedQuery(query)))
  }

  /** Whatever a specific mode finds, the "all" mode finds too. */
  lemma EveryModeWithinAll(patients: seq<Patient>, query: string, mode: SearchMode)
    ensures forall i :: 0 <= i < |FilterPatients(patients, query, mode)| ==>
              FilterPatients(patients, query, mode)[i] in FilterPatients(patients, query, All)
  {
    var r := FilterPatients(patients, query, mode);
    forall i | 0 <= i < |r|
      ensures r[i] in FilterPatients(patients, query, All)
    {
      assert r[i] in patients;
      var j :| 0 <= j < |patients| && patients[j] == r[i];
      if !IsBlank(query) {
        assert Matches(patients[j], All, NormalizedQuery(query));
      }
    }
  }

  /** Lowering a character leaves whitespace and non-whitespace as they were. */
  lemma LowerKeepsSpaces(s: string)
    ensures forall i :: 0 <= i < |s| ==> (IsSpace(Lower(s)[i]) <==> IsSpace(s[i]))
  {
  }

  /** The search ignores the case of the query. */
  lemma SearchIgnoresQueryCase(patients: seq<Patient>, query: string, mode: SearchMode)
    ensures FilterPatients(patients, Lower(query), mode) == FilterPatients(patients, query, mode)
  {
    LowerKeepsSpaces(query);
    LowerLaws(query, "");
  }

  // ---------------------------------------------------------------------
  // List updates
  // ---------------------------------------------------------------------

  /** `prev.map(p => p.id === id ? updated : p)`. */
  function ReplaceById(patients: seq<Patient>, id: string, updated: Patient): (r: seq<Patient>)
    ensures |r| == |patients|
    ensures forall i :: 0 <= i < |patients| && patients[i].id == id ==> r[i] == updated
    ensures forall i :: 0 <= i < |patients| && patients[i].id != id ==> r[i] == patients[i]
  {
    Seqs.MapWhere(patients, (p: Patient) => p.id == id, _ => updated)
  }

  /** `prev.filter(p => p.id !== id)`. */
  function RemoveById(patients: seq<Patient>, id: string): (r: seq<Patient>)
    ensures forall i :: 0 <= i < |r| ==> r[i].id != id
    ensures forall i :: 0 <= i < |patients| && patients[i].id != id ==> patients[i] in r
    ensures Seqs.IsSubsequence(r, patients)
    ensures (forall i :: 0 <= i < |patients| ==> patients[i].id != id) ==> r == patients
  {
    Seqs.Filter(patients, (p: Patient) => p.id != id)
  }

  /** A saved patient keeps its id, so it replaces its own listing and is shown in the list. */
  lemma SavedPatientIsListed(patients: seq<Patient>, p: Patient, form: EditForm)
    requires exists i :: 0 <= i < |patients| && patients[i].id == p.id
    ensures Overlay(p, form) in ReplaceById(patients, p.id, Overlay(p, form))
  {
    var i :| 0 <= i < |patients| && patients[i].id == p.id;
    assert ReplaceById(patients, p.id, Overlay(p, form))[i] == Overlay(p, form);
  }

  /** The first and last names the add form requires. */
  predicate CanAdd(draft: NewPatient) {
    !IsBlank(draft.firstName) && !IsBlank(draft.lastName)
  }

  class PatientsView {
    var patients: seq<Patient>
    var selected: Option<Patient>
    var editForm: EditForm
    var newPatient: NewPatient

    /** The page starts with no patients, no selection and empty forms. */
    constructor()
      ensures patients == [] && selected == None
      ensures editForm == EmptyForm && newPatient == EmptyNewPatient
    {
      patients := [];
      selected := None;
      editForm := EmptyForm;
      newPatient := EmptyNewPatient;
    }

    /**
     * `setSelectedPatient`, followed by the effect on `[selectedPatient]`:
     * it runs only when the selection changes, and fills the edit form when
     * the new selection is a patient (and not `null`).  Selecting the patient
     * already selected keeps whatever the form holds.
     */
    method Select(p: Option<Patient>)
      modifies this
      ensures selected == p
      ensures editForm == if p.Some? && p != old(selected) then InitEditForm(p.value) else old(editForm)
      ensures patients == old(patients) && newPatient == old(newPatient)
    {
      if p.Some? && p != selected {
        editForm := InitEditForm(p.value);
      }
      selected := p;
    }

    /** The user types into the edit form. */
    method EditSelected(form: EditForm)
      modifies this
      ensures editForm == form
      ensures patients == old(patients) && selected == old(selected) && newPatient == old(newPatient)
    {
      editForm := form;
    }

    /** The user types into the add form. */
    method EditNewPatient(draft: NewPatient)
      modifies this
      ensures newPatient == draft
      ensures patients == old(patients) && selected == old(selected) && editForm == old(editForm)
    {
      newPatient := draft;
    }

    /**
     * `handleSavePatient`; `saved` is whether the PATCH succeeded.  With no
     * selection, or on failure, nothing changes; otherwise the selected
     * patient overlaid by the form replaces every entry with its id and
     * becomes the selection.  It is a new object, so the selection effect
     * always runs and refills the form from it.
     */
    method SavePatient(saved: bool)
      modifies this
      ensures old(selected).None? || !saved ==>
                patients == old(patients) && selected == old(selected) && editForm == old(editForm)
      ensures old(selected).Some? && saved ==>
                var updated := Overlay(old(selected).value, old(editForm));
                && patients == ReplaceById(old(patients), old(selected).value.id, updated)
                && selected == Some(updated)
                && editForm == InitEditForm(updated)
      ensures newPatient == old(newPatient)
    {
      if selected.None? || !saved {
        return;
      }
      var updated := Overlay(selected.value, editForm);
      patients := ReplaceById(patients, selected.value.id, updated);
      selected := Some(updated);
      editForm := InitEditForm(updated);
    }

    /**
     * `handleDeletePatient`; `confirmed` is the answer to the confirmation
     * prompt and `deleted` whether the DELETE succeeded.  On success every
     * entry with the id goes, and the selection is cleared if it had that id.
     */
    method DeletePatient(id: string, confirmed: bool, deleted: bool)
      modifies this
      ensures !confirmed || !deleted ==> patients == old(patients) && selected == old(selected)
      ensures confirmed && deleted ==>
                && patients == RemoveById(old(patients), id)
                && selected == if old(selected).Some? && old(selected).value.id == id then None else old(selected)
      ensures editForm == old(editForm) && newPatient == old(newPatient)
    {
      if !confirmed || !deleted {
        return;
      }
      patients := RemoveById(patients, id);
      if selected.Some? && selected.value.id == id {
        selected := None;
      }
    }

    /**
     * `handleAddPatient`: refused, with no request, when the first or last
     * name is blank; otherwise the POST is sent (`requested`), and on
     * success (`created` holds the patient the API returned) that patient
     * is appended and the add form is cleared.
     */
    method AddPatient(created: Option<Patient>) returns (requested: bool)
      modifies this
      ensures requested <==> CanAdd(old(newPatient))
      ensures requested && created.Some? ==>
                patients == old(patients) + [created.value] && newPatient == EmptyNewPatient
      ensures !(requested && created.Some?) ==> patients == old(patients) && newPatient == old(newPatient)
      ensures selected == old(selected) && editForm == old(editForm)
    {
      if !CanAdd(newPatient) {
        return false;
      }
      requested := true;
      if created.Some? {
        patients := patients + [created.value];
        newPatient := EmptyNewPatient;
      }
    }

  }
}
