/** The admin's service list (`src/app/admin/services/page.tsx`): the same
    add / edit / update / delete / toggle handlers as the barber list, over
    services whose only required field is the name. */
module AdminServices {
  import opened Common

  /** One entry of the list. `price` is a decimal amount. */
  datatype Service = Service(
    id: int, name: string, description: string, price: real, duration: int,
    category: string, status: string)

  /** The dialog's form `newService`. */
  datatype ServiceForm = ServiceForm(
    name: string, description: string, price: real, duration: int, category: string)

  /** The form after a reset: empty texts, price 0 and a 30-minute duration. */
  const EmptyForm := ServiceForm("", "", 0.0, 30, "")

  /** `newService.name`: the name is the one required field. */
  predicate FormComplete(f: ServiceForm)
  {
    f.name != ""
  }

  /** The form fields of a record, as `handleEditService` copies them. */
  function FormOf(s: Service): ServiceForm
  {
    ServiceForm(s.name, s.description, s.price, s.duration, s.category)
  }

  /** The record `handleAddService` builds: `{id, ...newService, status: "active"}`. */
  function NewService(id: int, f: ServiceForm): (s: Service)
    ensures s.id == id && FormOf(s) == f && s.status == "active"
  {
    Service(id, f.name, f.description, f.price, f.duration, f.category, "active")
  }

  /** `{...s, ...newService}`: the form's fields over the record's. */
  function WithForm(s: Service, f: ServiceForm): (r: Service)
    ensures FormOf(r) == f && r.id == s.id && r.status == s.status
  {
    s.(name := f.name, description := f.description, price := f.price,
       duration := f.duration, category := f.category)
  }

  function IdIs(id: int): Service -> bool
  {
    (s: Service) => s.id == id
  }

  function IdIsNot(id: int): Service -> bool
  {
    (s: Service) => s.id != id
  }

  /** `services.map(s => s.id === id ? {...s, ...newService} : s)`. */
  function UpdateById(list: seq<Service>, id: int, f: ServiceForm): (r: seq<Service>)
    ensures |r| == |list|
    ensures forall i :: 0 <= i < |list| ==>
      if list[i].id == id then r[i] == WithForm(list[i], f) else r[i] == list[i]
  {
    MapWhere(list, IdIs(id), (s: Service) => WithForm(s, f))
  }

  /** `services.filter(s => s.id !== id)`: no record with that id is left, every
      other record is kept as often as before, in the same order. */
  function DeleteById(list: seq<Service>, id: int): (r: seq<Service>)
    ensures forall i :: 0 <= i < |r| ==> r[i].id != id
    ensures forall s :: multiset(r)[s] == if s.id != id then multiset(list)[s] else 0
    ensures Subsequence(r, list)
  {
    var r := Filter(list, IdIsNot(id));
    FilterSubsequence(list, IdIsNot(id));
    assert forall s :: multiset(r)[s] == if s.id != id then multiset(list)[s] else 0 by {
      forall s ensures multiset(r)[s] == if s.id != id then multiset(list)[s] else 0 {
        FilterMultiset(list, IdIsNot(id), s);
      }
    }
    r
  }

  /** `services.map(s => s.id === id ? {...s, status: flipped} : s)`. */
  function ToggleById(list: seq<Service>, id: int): (r: seq<Service>)
    ensures |r| == |list|
    ensures forall i :: 0 <= i < |list| ==>
      if list[i].id == id then r[i] == list[i].(status := FlipStatus(list[i].status)) else r[i] == list[i]
  {
    MapWhere(list, IdIs(id), (s: Service) => s.(status := FlipStatus(s.status)))
  }

  // ---- properties of the list operations ----

  predicate UniqueIds(list: seq<Service>)
  {
    forall i, j :: 0 <= i < j < |list| ==> list[i].id != list[j].id
  }

  /** The ids are exactly 1, 2, ..., n in order. */
  predicate DenseIds(list: seq<Service>)
  {
    forall i :: 0 <= i < |list| ==> list[i].id == i + 1
  }

  /** Appending a record with id `length + 1` keeps the ids dense, hence unique. */
  lemma AddKeepsDenseIds(list: seq<Service>, f: ServiceForm)
    requires DenseIds(list)
    ensures DenseIds(list + [NewService(|list| + 1, f)])
    ensures UniqueIds(list + [NewService(|list| + 1, f)])
  {
  }

  /** Deleting the first of two records and adding one gives the new record
      the id of the one left: `length + 1` does not keep ids unique. */
  lemma DuplicateIdAfterDelete(a: Service, b: Service, f: ServiceForm)
    requires a.id == 1 && b.id == 2
    ensures DeleteById([a, b], 1) == [b]
    ensures var after := DeleteById([a, b], 1) + [NewService(|DeleteById([a, b], 1)| + 1, f)];
      after == [b, NewService(2, f)] && !UniqueIds(after)
  {
    var p := IdIsNot(1);
    assert [a, b][1..] == [b] && [b][1..] == [];
    assert Filter([b], p) == [b];
    assert Filter([a, b], p) == [b];
    var after := [b, NewService(2, f)];
    assert after[0].id == after[1].id;
  }

  /** Updating a record with the form its edit loaded gives the list back, when
      ids are unique: edit then save without typing changes nothing. */
  lemma UpdateWithOwnForm(list: seq<Service>, k: nat)
    requires UniqueIds(list) && k < |list|
    ensures UpdateById(list, list[k].id, FormOf(list[k])) == list
  {
    var r := UpdateById(list, list[k].id, FormOf(list[k]));
    forall i | 0 <= i < |list| ensures r[i] == list[i] {
      if i != k {
        assert list[i].id != list[k].id;
      }
    }
  }

  /** Toggling the same id twice restores every record whose status is
      "active" or "inactive"; any other status ends up "inactive". */
  lemma ToggleTwice(list: seq<Service>, id: int)
    ensures |ToggleById(ToggleById(list, id), id)| == |list|
    ensures forall i :: 0 <= i < |list| ==>
      var twice := ToggleById(ToggleById(list, id), id)[i];
      if list[i].id == id && list[i].status != "active" && list[i].status != "inactive"
      then twice == list[i].(status := "inactive")
      else twice == list[i]
  {
    var once := ToggleById(list, id);
    assert forall i :: 0 <= i < |list| ==> once[i].id == list[i].id;
  }

  // ---- the page state ----

  /** Why `handleUpdateService` stopped, or that it went through. `NoCurrent` is
      the `currentService.id` read on a null `currentService`, which throws
      before any state is set. */
  datatype UpdateOutcome = Incomplete | NoCurrent | Updated

  class ServicesPage {
    var services: seq<Service>
    var form: ServiceForm
    var current: Option<Service>
    var isAdding: bool
    var isEditing: bool

    constructor (initial: seq<Service>)
      ensures services == initial && form == EmptyForm && current == None
      ensures !isAdding && !isEditing
    {
      services := initial;
      form := EmptyForm;
      current := None;
      isAdding := false;
      isEditing := false;
    }

    /** `handleAddService`: rejected, changing nothing, when the name is empty;
        otherwise one record is appended with id `length + 1` and status
        "active", the form is reset and the dialog closed. */
    method AddService() returns (added: bool)
      modifies this
      ensures added <==> old(FormComplete(form))
      ensures !added ==> services == old(services) && form == old(form) && isAdding == old(isAdding)
      ensures added ==> services == old(services) + [NewService(|old(services)| + 1, old(form))]
      ensures added ==> form == EmptyForm && !isAdding
      ensures current == old(current) && isEditing == old(isEditing)
      ensures old(DenseIds(services)) ==> DenseIds(services) && UniqueIds(services)
    {
      if form.name == "" {
        return false;
      }
      var s := NewService(|services| + 1, form);
      if DenseIds(services) {
        AddKeepsDenseIds(services, form);
      }
      services := services + [s];
      form := EmptyForm;
      isAdding := false;
      return true;
    }

    /** `handleEditService(s)`: remember the record, load its fields into the
        form and open the edit dialog. */
    method EditService(s: Service)
      modifies this
      ensures current == Some(s) && form == FormOf(s) && isEditing
      ensures services == old(services) && isAdding == old(isAdding)
    {
      current := Some(s);
      form := FormOf(s);
      isEditing := true;
    }

    /** `handleUpdateService`: rejected when the name is empty; otherwise every
        record with the remembered id takes the form's fields, keeping its id
        and status, and the form, the remembered record and the dialog are
        reset. With nothing remembered the map throws on its first element,
        so only an empty list gets through. */
    method UpdateService() returns (outcome: UpdateOutcome)
      modifies this
      ensures outcome == Incomplete <==> !old(FormComplete(form))
      ensures outcome == NoCurrent <==> old(FormComplete(form)) && old(current).None? && |old(services)| > 0
      ensures outcome != Updated ==>
        services == old(services) && form == old(form) && current == old(current) && isEditing == old(isEditing)
      ensures outcome == Updated ==>
        && services == (if old(current).Some? then UpdateById(old(services), old(current).value.id, old(form))
                        else old(services))
        && form == EmptyForm && current == None && !isEditing
      ensures isAdding == old(isAdding)
    {
      if form.name == "" {
        return Incomplete;
      }
      if current.None? {
        if |services| > 0 {
          return NoCurrent;
        }
      } else {
        services := UpdateById(services, current.value.id, form);
      }
      form := EmptyForm;
      current := None;
      isEditing := false;
      return Updated;
    }

    /** `handleDeleteService(id)`; `confirmed` is the answer to `confirm`. */
    method DeleteService(id: int, confirmed: bool)
      modifies this
      ensures services == if confirmed then DeleteById(old(services), id) else old(services)
      ensures form == old(form) && current == old(current)
      ensures isAdding == old(isAdding) && isEditing == old(isEditing)
    {
      if confirmed {
        services := DeleteById(services, id);
      }
    }

    /** `handleToggleStatus(id)`. */
    method ToggleStatus(id: int)
      modifies this
      ensures services == ToggleById(old(services), id)
      ensures form == old(form) && current == old(current)
      ensures isAdding == old(isAdding) && isEditing == old(isEditing)
    {
      services := ToggleById(services, id);
    }
  }

  // ---- the mock data (lines 43-89) ----

  function MockServices(): seq<Service>
  {
    [ Service(1, "Haircut", "Professional haircut with precision scissors and clippers", 25.0, 30, "Hair", "active"),
      Service(2, "Beard Trim", "Expert beard trimming and shaping for a clean look", 15.0, 20, "Beard", "active"),
      Service(3, "Hair & Beard", "Complete package including haircut and beard trim", 35.0, 50, "Combo", "active"),
      Service(4, "Hot Towel Shave", "Relaxing hot towel shave with premium products", 20.0, 30, "Shave", "active"),
      Service(5, "Hair Coloring", "Professional hair coloring service", 50.0, 60, "Color", "inactive") ]
  }

  /** The initial ids are 1..5, so the first add gets id 6 and the ids stay unique. */
  lemma MockServicesDense(f: ServiceForm)
    ensures DenseIds(MockServices())
    ensures var after := MockServices() + [NewService(|MockServices()| + 1, f)];
      after[5].id == 6 && UniqueIds(after)
  {
    AddKeepsDenseIds(MockServices(), f);
  }
}
