/**
 * The patients store (`usePatientsStore` in src/store/patients.ts): one
 * `list` of patients that `setList` replaces and `updateById` rewrites.
 */
module PatientsStore {
  import Seqs

  /**
   * A stored patient: its id, and every other field of the record as an
   * opaque name-to-value map (the store never looks at them).
   */
  datatype Patient = Patient(id: string, fields: map<string, string>)

  /** `String(p.id) === String(id)`: both ids are strings, so `String` leaves them as they are. */
  predicate HasId(p: Patient, id: string) {
    p.id == id
  }

  /**
   * The list `updateById(id, updater)` leaves: same length and order, every
   * entry with the id replaced by `updater` of it, every other entry as it was.
   */
  function UpdatedById(list: seq<Patient>, id: string, updater: Patient -> Patient): (r: seq<Patient>)
    ensures |r| == |list|
    ensures forall i :: 0 <= i < |list| && list[i].id == id ==> r[i] == updater(list[i])
    ensures forall i :: 0 <= i < |list| && list[i].id != id ==> r[i] == list[i]
  {
    Seqs.MapWhere(list, p => HasId(p, id), updater)
  }

  /** When no entry has the id, `updateById` leaves the list as it was. */
  lemma UpdateOfMissingIdIsIdentity(list: seq<Patient>, id: string, updater: Patient -> Patient)
    requires forall i :: 0 <= i < |list| ==> list[i].id != id
    ensures UpdatedById(list, id, updater) == list
  {
    Seqs.MapWhereNoneSelected(list, p => HasId(p, id), updater);
  }

  /**
   * Two updates of the same id, the first keeping the id, amount to one
   * update by the composed updater.
   */
  lemma UpdatesCompose(list: seq<Patient>, id: string, f: Patient -> Patient, g: Patient -> Patient)
    requires forall p: Patient :: p.id == id ==> f(p).id == id
    ensures UpdatedById(UpdatedById(list, id, f), id, g) == UpdatedById(list, id, p => g(f(p)))
  {
    Seqs.MapWhereTwice(list, p => HasId(p, id), f, g);
  }

  class Store {
    var list: seq<Patient>

    /** The store starts with no patients. */
    constructor()
      ensures list == []
    {
      list := [];
    }

    /** `setList`: the list becomes the argument. */
    method SetList(newList: seq<Patient>)
      modifies this
      ensures list == newList
    {
      list := newList;
    }

    /** `updateById`: the list is rewritten as `UpdatedById` describes. */
    method UpdateById(id: string, updater: Patient -> Patient)
      modifies this
      ensures list == UpdatedById(old(list), id, updater)
    {
      list := UpdatedById(list, id, updater);
    }
  }
}
