/** The admin's barber list (`src/app/admin/barbers/page.tsx`): add with the
    required-field check and `id = length + 1`, edit into the form, update by
    id, delete by id after confirmation, and the active/inactive switch. */
module AdminBarbers {
  import opened Common

  /** One entry of the list. `rating` is a decimal (4.9). */
  datatype Barber = Barber(
    id: int, name: string, email: string, phone: string, specialty: string,
    rating: real, experience: string, status: string, appointments: int)

  /** The dialog's form `newBarber`: the five fields a user types in. */
  datatype BarberForm = BarberForm(
    name: string, email: string, phone: string, specialty: string, experience: string)

  const EmptyForm := BarberForm("", "", "", "", "")

  /** `newBarber.name && newBarber.email`: both required fields are non-empty. */
  predicate FormComplete(f: BarberForm)
  {
    f.name != "" && f.email != ""
  }

  /** The form fields of a record, as `handleEditBarber` copies them. */
  function FormOf(b: Barber): BarberForm
  {
    BarberForm(b.name, b.email, b.phone, b.specialty, b.experience)
  }

  /** The record `handleAddBarber` builds: `{id, ...newBarber, rating: 0,
      status: "active", appointments: 0}`. */
  function NewBarber(id: int, f: BarberForm): (b: Barber)
    ensures b.id == id && FormOf(b) == f
    ensures b.rating == 0.0 && b.status == "active" && b.appointments == 0
  {
    Barber(id, f.name, f.email, f.phone, f.specialty, 0.0, f.experience, "active", 0)
  }

  /** `{...b, ...newBarber}`: the form's fields over the record's. */
  function WithForm(b: Barber, f: BarberForm): (r: Barber)
    ensures FormOf(r) == f
    ensures r.id == b.id && r.rating == b.rating && r.status == b.status && r.appointments == b.appointments
  {
    b.(name := f.name, email := f.email, phone := f.phone, specialty := f.specialty, experience := f.experience)
  }

  function IdIs(id: int): Barber -> bool
  {
    (b: Barber) => b.id == id
  }

  function IdIsNot(id: int): Barber -> bool
  {
    (b: Barber) => b.id != id
  }

  /** `barbers.map(b => b.id === id ? {...b, ...newBarber} : b)`. */
  function UpdateById(list: seq<Barber>, id: int, f: BarberForm): (r: seq<Barber>)
    ensures |r| == |list|
    ensures forall i :: 0 <= i < |list| ==>
      if list[i].id == id then r[i] == WithForm(list[i], f) else r[i] == list[i]
  {
    MapWhere(list, IdIs(id), (b: Barber) => WithForm(b, f))
  }

  /** `barbers.filter(b => b.id !== id)`: no record with that id is left, every
      other record is kept as often as before, in the same order. */
  function DeleteById(list: seq<Barber>, id: int): (r: seq<Barber>)
    ensures forall i :: 0 <= i < |r| ==> r[i].id != id
    ensures forall b :: multiset(r)[b] == if b.id != id then multiset(list)[b] else 0
    ensures Subsequence(r, list)
  {
    var r := Filter(list, IdIsNot(id));
    FilterSubsequence(list, IdIsNot(id));
    assert forall b :: multiset(r)[b] == if b.id != id then multiset(list)[b] else 0 by {
      forall b ensures multiset(r)[b] == if b.id != id then multiset(list)[b] else 0 {
        FilterMultiset(list, IdIsNot(id), b);
      }
    }
    r
  }

  /** `barbers.map(b => b.id === id ? {...b, status: flipped} : b)`. */
  function ToggleById(list: seq<Barber>, id: int): (r: seq<Barber>)
    ensures |r| == |list|
    ensures forall i :: 0 <= i < |list| ==>
      if list[i].id == id then r[i] == list[i].(status := FlipStatus(list[i].status)) else r[i] == list[i]
  {
    MapWhere(list, IdIs(id), (b: Barber) => b.(status := FlipStatus(b.status)))
  }

  // ---- properties of the list operations ----

  predicate UniqueIds(list: seq<Barber>)
  {
    forall i, j :: 0 <= i < j < |list| ==> list[i].id != list[j].id
  }

  /** The ids are exactly 1, 2, ..., n in order: what `id = length + 1` keeps
      as long as nothing is deleted. */
  predicate DenseIds(list: seq<Barber>)
  {
    forall i :: 0 <= i < |list| ==> list[i].id == i + 1
  }

  /** Appending a record with id `length + 1` keeps the ids dense, hence unique. */
  lemma AddKeepsDenseIds(list: seq<Barber>, f: BarberForm)
    requires DenseIds(list)
    ensures DenseIds(list + [NewBarber(|list| + 1, f)])
    ensures UniqueIds(list + [NewBarber(|list| + 1, f)])
  {
  }

  /** Deleting an id that no record has changes nothing. */
  lemma DeleteAbsent(list: seq<Barber>, id: int)
    requires forall i :: 0 <= i < |list| ==> list[i].id != id
    ensures DeleteById(list, id) == list
  {
    FilterAll(list, IdIsNot(id));
  }

  /** Deleting the id of the second of four records (and only its) leaves the other three. */
  lemma DeleteSecondOfFour(a: Barber, b: Barber, c: Barber, d: Barber)
    requires a.id != b.id && c.id != b.id && d.id != b.id
    ensures DeleteById([a, b, c, d], b.id) == [a, c, d]
  {
    var p := IdIsNot(b.id);
    assert [a, b, c, d][1..] == [b, c, d] && [b, c, d][1..] == [c, d];
    assert [c, d][1..] == [d] && [d][1..] == [];
    assert Filter([d], p) == [d];
    assert Filter([c, d], p) == [c, d];
    assert Filter([b, c, d], p) == [c, d];
    assert Filter([a, b, c, d], p) == [a, c, d];
  }

  /** Id uniqueness is not kept: with ids 1..4, deleting barber 2 and adding
      one gives the new record id 4 again, so two rows carry id 4 and one
      toggle flips both. */
  lemma DuplicateIdAfterDelete(list: seq<Barber>, f: BarberForm)
    requires |list| == 4 && DenseIds(list) && list[3].status == "active"
    ensures var after := DeleteById(list, 2) + [NewBarber(|DeleteById(list, 2)| + 1, f)];
      && |after| == 4 && after[2].id == 4 && after[3].id == 4 && !UniqueIds(after)
      && ToggleById(after, 4)[2].status == "inactive" && ToggleById(after, 4)[3].status == "inactive"
  {
    assert list == [list[0], list[1], list[2], list[3]];
    DeleteSecondOfFour(list[0], list[1], list[2], list[3]);
    var after := DeleteById(list, 2) + [NewBarber(|DeleteById(list, 2)| + 1, f)];
    assert after == [list[0], list[2], list[3], NewBarber(4, f)];
  }

  /** The initial list meets `DuplicateIdAfterDelete`'s condition: ids 1..4,
      barber 4 active. */
  lemma MockBarbersDense()
    ensures DenseIds(MockBarbers()) && MockBarbers()[3].status == "active"
  {
  }

  /** Updating a record with the form its edit loaded gives the list back, when
      ids are unique: edit then save without typing changes nothing. */
  lemma UpdateWithOwnForm(list: seq<Barber>, k: nat)
    requires UniqueIds(list) && k < |list|
    ensures UpdateById(list, list[k].id, FormOf(list[k])) == list
  {
    var r := UpdateById(list, list[k].id, FormOf(list[k]));
    forall i | 0 <= i < |list| ensures r[i] == list[i] {
      if i != k {
        assert list[i].id != list[k].id;
      }
    }
  }

  /** Toggling the same id twice restores every record whose status is
      "active" or "inactive"; any other status ends up "inactive". */
  lemma ToggleTwice(list: seq<Barber>, id: int)
    ensures |ToggleById(ToggleById(list, id), id)| == |list|
    ensures forall i :: 0 <= i < |list| ==>
      var twice := ToggleById(ToggleById(list, id), id)[i];
      if list[i].id == id && list[i].status != "active" && list[i].status != "inactive"
      then twice == list[i].(status := "inactive")
      else twice == list[i]
  {
    var once := ToggleById(list, id);
    assert forall i :: 0 <= i < |list| ==> once[i].id == list[i].id;
  }

  // ---- the page state ----

  /** Why `handleUpdateBarber` stopped, or that it went through. `NoCurrent` is
      the `currentBarber.id` read on a null `currentBarber`, which throws
      before any state is set. */
  datatype UpdateOutcome = Incomplete | NoCurrent | Updated

  class BarbersPage {
    var barbers: seq<Barber>
    var form: BarberForm
    var current: Option<Barber>
    var isAdding: bool
    var isEditing: bool

    constructor (initial: seq<Barber>)
      ensures barbers == initial && form == EmptyForm && current == None
      ensures !isAdding && !isEditing
    {
      barbers := initial;
      form := EmptyForm;
      current := None;
      isAdding := false;
      isEditing := false;
    }

    /** `handleAddBarber`: rejected, changing nothing, when name or email is
        empty; otherwise one record is appended with id `length + 1`, and the
        form is cleared and the dialog closed. Dense ids stay dense. */
    method AddBarber() returns (added: bool)
      modifies this
      ensures added <==> old(FormComplete(form))
      ensures !added ==> barbers == old(barbers) && form == old(form) && isAdding == old(isAdding)
      ensures added ==> barbers == old(barbers) + [NewBarber(|old(barbers)| + 1, old(form))]
      ensures added ==> form == EmptyForm && !isAdding
      ensures current == old(current) && isEditing == old(isEditing)
      ensures old(DenseIds(barbers)) ==> DenseIds(barbers) && UniqueIds(barbers)
    {
      if form.name == "" || form.email == "" {
        return false;
      }
      var b := NewBarber(|barbers| + 1, form);
      if DenseIds(barbers) {
        AddKeepsDenseIds(barbers, form);
      }
      barbers := barbers + [b];
      form := EmptyForm;
      isAdding := false;
      return true;
    }

    /** `handleEditBarber(b)`: remember the record, load its fields into the
        form and open the edit dialog. */
    method EditBarber(b: Barber)
      modifies this
      ensures current == Some(b) && form == FormOf(b) && isEditing
      ensures barbers == old(barbers) && isAdding == old(isAdding)
    {
      current := Some(b);
      form := FormOf(b);
      isEditing := true;
    }

    /** `handleUpdateBarber`: rejected when name or email is empty; otherwise
        every record with the remembered id takes the form's fields, keeping
        its id, rating, status and appointment count, and the form, the
        remembered record and the dialog are reset. With nothing remembered
        the map throws on its first element, so only an empty list gets through. */
    method UpdateBarber() returns (outcome: UpdateOutcome)
      modifies this
      ensures outcome == Incomplete <==> !old(FormComplete(form))
      ensures outcome == NoCurrent <==> old(FormComplete(form)) && old(current).None? && |old(barbers)| > 0
      ensures outcome != Updated ==>
        barbers == old(barbers) && form == old(form) && current == old(current) && isEditing == old(isEditing)
      ensures outcome == Updated ==>
        && barbers == (if old(current).Some? then UpdateById(old(barbers), old(current).value.id, old(form))
                       else old(barbers))
        && form == EmptyForm && current == None && !isEditing
      ensures isAdding == old(isAdding)
    {
      if form.name == "" || form.email == "" {
        return Incomplete;
      }
      if current.None? {
        if |barbers| > 0 {
          return NoCurrent;
        }
      } else {
        barbers := UpdateById(barbers, current.value.id, form);
      }
      form := EmptyForm;
      current := None;
      isEditing := false;
      return Updated;
    }

    /** `handleDeleteBarber(id)`; `confirmed` is the answer to `confirm`. */
    method DeleteBarber(id: int, confirmed: bool)
      modifies this
      ensures barbers == if confirmed then DeleteById(old(barbers), id) else old(barbers)
      ensures form == old(form) && current == old(current)
      ensures isAdding == old(isAdding) && isEditing == old(isEditing)
    {
      if confirmed {
        barbers := DeleteById(barbers, id);
      }
    }

    /** `handleToggleStatus(id)`. */
    method ToggleStatus(id: int)
      modifies this
      ensures barbers == ToggleById(old(barbers), id)
      ensures form == old(form) && current == old(current)
      ensures isAdding == old(isAdding) && isEditing == old(isEditing)
    {
      barbers := ToggleById(barbers, id);
    }
  }

  // ---- the mock data (lines 44-89) ----

  function MockBarbers(): seq<Barber>
  {
    [ Barber(1, "John Smith", "john.smith@example.com", "+1 (555) 123-4567",
             "Haircuts, Beard Trims", 4.9, "5 years", "active", 124),
      Barber(2, "Mike Johnson", "mike.johnson@example.com", "+1 (555) 234-5678",
             "Hair Coloring, Styling", 4.7, "8 years", "active", 98),
      Barber(3, "David Wilson", "david.wilson@example.com", "+1 (555) 345-6789",
             "Beard Design, Hot Towel Shave", 4.8, "6 years", "inactive", 76),
      Barber(4, "Robert Brown", "robert.brown@example.com", "+1 (555) 456-7890",
             "All Services", 4.9, "10 years", "active", 156) ]
  }
}
