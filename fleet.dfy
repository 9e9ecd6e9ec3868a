/** The vehicle page over mock data: the vehicle list with its search and
    category filter, the category list, the summary tiles, and the form
    that creates, edits and deletes vehicles. */
module Fleet {
  import opened Wrappers
  import opened Lists
  import opened Text
  import opened Numbers
  import opened Records

  /** The form's initial state, to which resetForm returns. */
  const EmptyVehicle: Vehicle :=
    Vehicle(None, "", "", "", "", Blank, Blank, "", "", "", "", "", "", Blank)

  /** `vehiculos.map(v => v.categoria)`. */
  function CategoryColumn(vehicles: seq<Vehicle>): (cs: seq<string>)
    ensures |cs| == |vehicles|
    ensures forall i :: 0 <= i < |vehicles| ==> cs[i] == vehicles[i].categoria
  {
    seq(|vehicles|, i requires 0 <= i < |vehicles| => vehicles[i].categoria)
  }

  /** `categorias`: every category of the list exactly once. */
  function Categories(vehicles: seq<Vehicle>): (r: seq<string>)
    ensures NoDuplicates(r)
    ensures forall c :: c in r ==> exists v :: v in vehicles && v.categoria == c
    ensures forall v :: v in vehicles ==> v.categoria in r
  {
    var cs := CategoryColumn(vehicles);
    assert forall c :: c in cs ==> exists i :: 0 <= i < |vehicles| && vehicles[i].categoria == c;
    assert forall i :: 0 <= i < |vehicles| ==> vehicles[i].categoria in cs;
    Distinct(cs)
  }

  /** The categories are listed in the order in which they first occur. */
  lemma CategoriesInFirstOccurrenceOrder(vehicles: seq<Vehicle>)
    ensures var cs, r := CategoryColumn(vehicles), Categories(vehicles);
      forall i, j :: 0 <= i < j < |r| ==> FirstIndex(cs, r[i]) < FirstIndex(cs, r[j])
  {
    DistinctInFirstOccurrenceOrder(CategoryColumn(vehicles));
  }

  /** The lower-cased term occurs in the lower-cased name, code, description
      or plate. */
  predicate MatchesSearch(v: Vehicle, term: string) {
    var t := Lower(term);
    Includes(Lower(v.nombre), t) || Includes(Lower(v.codigo), t) ||
    Includes(Lower(v.descripcion), t) || Includes(Lower(v.placa), t)
  }

  /** No category filter, or the vehicle's own category. */
  predicate MatchesCategory(v: Vehicle, filter: string) {
    filter == "" || v.categoria == filter
  }

  /** `filteredVehiculos`: the vehicles passing both tests, in list order. */
  function FilteredVehicles(vehicles: seq<Vehicle>, term: string, filter: string): (r: seq<Vehicle>)
    ensures IsSubsequence(r, vehicles)
    ensures forall v :: v in r ==> v in vehicles && MatchesSearch(v, term) && MatchesCategory(v, filter)
    ensures forall v :: v in vehicles && MatchesSearch(v, term) && MatchesCategory(v, filter) ==> v in r
    ensures multiset(r) <= multiset(vehicles)
    ensures forall i :: 0 <= i < |vehicles| && MatchesSearch(vehicles[i], term) && MatchesCategory(vehicles[i], filter) ==>
              multiset(r)[vehicles[i]] == multiset(vehicles)[vehicles[i]]
  {
    var keep := (v: Vehicle) => MatchesSearch(v, term) && MatchesCategory(v, filter);
    FilterIsSubsequence(vehicles, keep);
    Filter(vehicles, keep)
  }

  /** With an empty search term and no category filter every vehicle shows. */
  lemma EmptyFiltersKeepAll(vehicles: seq<Vehicle>)
    ensures FilteredVehicles(vehicles, "", "") == vehicles
  {
    assert Lower("") == "";
    forall v | v in vehicles ensures MatchesSearch(v, "") {
      IncludesEmpty(Lower(v.nombre));
    }
    FilterAll(vehicles, (v: Vehicle) => MatchesSearch(v, "") && MatchesCategory(v, ""));
  }

  /** `parseInt(v.stock || 0) > 0`. */
  predicate InStock(v: Vehicle) {
    OrZero(v.stock).Val? && OrZero(v.stock).v > 0
  }

  /** The "Disponibles" tile. */
  function AvailableCount(vehicles: seq<Vehicle>): (n: nat)
    ensures n <= |vehicles|
  {
    |Filter(vehicles, InStock)|
  }

  /** The "Disponibles" tile never exceeds the "Total de Vehículos" tile. */
  lemma AvailableWithinTotal(vehicles: seq<Vehicle>, term: string, filter: string)
    ensures AvailableCount(FilteredVehicles(vehicles, term, filter)) <= |FilteredVehicles(vehicles, term, filter)|
  {
  }

  /** `parseFloat(v.precio || 0) * parseInt(v.stock || 0)`. */
  function IncomeOf(v: Vehicle): Num {
    Product(OrZero(v.precio), OrZero(v.stock))
  }

  /** The "Ingresos Potenciales" tile: `reduce` adding up IncomeOf from the
      left, starting at 0. */
  function PotentialIncome(vehicles: seq<Vehicle>): (r: Num)
    ensures r != Blank
    ensures r.Val? <==> forall v :: v in vehicles ==> IncomeOf(v).Val?
  {
    if vehicles == [] then Val(0)
    else
      var init := vehicles[..|vehicles| - 1];
      assert vehicles == init + [vehicles[|vehicles| - 1]];
      Plus(PotentialIncome(init), IncomeOf(vehicles[|vehicles| - 1]))
  }

  /** A numeric field's value, empty counted as 0. */
  function ValueOrZero(n: Num): int {
    if n.Val? then n.v else 0
  }

  /** Rate times stock summed over the list, empty fields counted as 0. */
  function IncomeSum(vehicles: seq<Vehicle>): int {
    if vehicles == [] then 0
    else ValueOrZero(vehicles[0].precio) * ValueOrZero(vehicles[0].stock) + IncomeSum(vehicles[1..])
  }

  lemma {:induction false} IncomeSumAppend(vehicles: seq<Vehicle>, v: Vehicle)
    ensures IncomeSum(vehicles + [v]) == IncomeSum(vehicles) + ValueOrZero(v.precio) * ValueOrZero(v.stock)
  {
    if vehicles != [] {
      assert (vehicles + [v])[1..] == vehicles[1..] + [v];
      IncomeSumAppend(vehicles[1..], v);
    }
  }

  /** When no rate or stock is non-numeric text, the tile shows the sum of
      rate times stock with empty fields counted as 0. */
  lemma {:induction false} PotentialIncomeIsSum(vehicles: seq<Vehicle>)
    requires forall v :: v in vehicles ==> v.precio != NotANumber && v.stock != NotANumber
    ensures PotentialIncome(vehicles) == Val(IncomeSum(vehicles))
  {
    if vehicles != [] {
      var init, last := vehicles[..|vehicles| - 1], vehicles[|vehicles| - 1];
      assert vehicles == init + [last];
      PotentialIncomeIsSum(init);
      IncomeSumAppend(init, last);
    }
  }

  /** The text inputs of the form. */
  predicate IsVehicleTextField(name: string) {
    name in {"codigo", "nombre", "descripcion", "categoria", "fecha_ingreso", "placa", "modelo", "color", "transmision", "combustible"}
  }

  /** The number inputs of the form. */
  predicate IsVehicleNumberField(name: string) {
    name in {"precio", "stock", "km"}
  }

  /** The text field `name` of the form. */
  function FieldText(v: Vehicle, name: string): string
    requires IsVehicleTextField(name)
  {
    match name
    case "codigo" => v.codigo
    case "nombre" => v.nombre
    case "descripcion" => v.descripcion
    case "categoria" => v.categoria
    case "fecha_ingreso" => v.fechaIngreso
    case "placa" => v.placa
    case "modelo" => v.modelo
    case "color" => v.color
    case "transmision" => v.transmision
    case _ => v.combustible
  }

  /** The number field `name` of the form. */
  function FieldNumber(v: Vehicle, name: string): Num
    requires IsVehicleNumberField(name)
  {
    match name
    case "precio" => v.precio
    case "stock" => v.stock
    case _ => v.km
  }

  /** `{...v, [name]: value}` for a text input: the named field reads back
      the value, every other field and the id keep theirs. */
  function SetText(v: Vehicle, name: string, value: string): (r: Vehicle)
    requires IsVehicleTextField(name)
    ensures FieldText(r, name) == value
    ensures forall m :: IsVehicleTextField(m) && m != name ==> FieldText(r, m) == FieldText(v, m)
    ensures forall m :: IsVehicleNumberField(m) ==> FieldNumber(r, m) == FieldNumber(v, m)
    ensures r.id == v.id
  {
    match name
    case "codigo" => v.(codigo := value)
    case "nombre" => v.(nombre := value)
    case "descripcion" => v.(descripcion := value)
    case "categoria" => v.(categoria := value)
    case "fecha_ingreso" => v.(fechaIngreso := value)
    case "placa" => v.(placa := value)
    case "modelo" => v.(modelo := value)
    case "color" => v.(color := value)
    case "transmision" => v.(transmision := value)
    case _ => v.(combustible := value)
  }

  /** `{...v, [name]: value}` for a number input, `value` being the reading
      of what was typed: the named field reads back the value, every other
      field and the id keep theirs. */
  function SetNumber(v: Vehicle, name: string, value: Num): (r: Vehicle)
    requires IsVehicleNumberField(name)
    ensures FieldNumber(r, name) == value
    ensures forall m :: IsVehicleNumberField(m) && m != name ==> FieldNumber(r, m) == FieldNumber(v, m)
    ensures forall m :: IsVehicleTextField(m) ==> FieldText(r, m) == FieldText(v, m)
    ensures r.id == v.id
  {
    match name
    case "precio" => v.(precio := value)
    case "stock" => v.(stock := value)
    case _ => v.(km := value)
  }

  /** The list after saving an edit: each vehicle with the form's id is
      replaced by the form, every other vehicle stays in place. */
  function UpdatedVehicles(vehicles: seq<Vehicle>, form: Vehicle): (r: seq<Vehicle>)
    ensures |r| == |vehicles|
    ensures forall i :: 0 <= i < |r| ==> r[i] == if vehicles[i].id == form.id then form else vehicles[i]
  {
    ReplaceWhere(vehicles, (v: Vehicle) => v.id == form.id, form)
  }

  /** The list after deleting `id`: the vehicles with another id, in order. */
  function DeletedVehicles(vehicles: seq<Vehicle>, id: Option<int>): (r: seq<Vehicle>)
    ensures IsSubsequence(r, vehicles)
    ensures forall v :: v in r ==> v in vehicles && v.id != id
    ensures forall v :: v in vehicles && v.id != id ==> v in r
    ensures |r| == |vehicles| - |Filter(vehicles, (v: Vehicle) => v.id == id)|
  {
    FilterIsSubsequence(vehicles, (v: Vehicle) => v.id != id);
    FilterComplement(vehicles, (v: Vehicle) => v.id == id, (v: Vehicle) => v.id != id);
    Filter(vehicles, (v: Vehicle) => v.id != id)
  }

  /** The vehicle page's state. */
  class FleetPage {
    var vehicles: seq<Vehicle>
    var current: Vehicle
    var isEditing: bool
    var showForm: bool
    var searchTerm: string
    var categoryFilter: string

    /** The page once its mock data has loaded. */
    constructor (vehicles0: seq<Vehicle>)
      ensures vehicles == vehicles0 && current == EmptyVehicle
      ensures !isEditing && !showForm && searchTerm == "" && categoryFilter == ""
    {
      vehicles, current := vehicles0, EmptyVehicle;
      isEditing, showForm, searchTerm, categoryFilter := false, false, "", "";
    }

    /** The search box. */
    method SetSearchTerm(term: string)
      modifies this`searchTerm
      ensures searchTerm == term
    {
      searchTerm := term;
    }

    /** The category select. */
    method SetCategoryFilter(filter: string)
      modifies this`categoryFilter
      ensures categoryFilter == filter
    {
      categoryFilter := filter;
    }

    /** handleInputChange on a text input. */
    method HandleTextInput(name: string, value: string)
      requires IsVehicleTextField(name)
      modifies this`current
      ensures current == SetText(old(current), name, value)
    {
      current := SetText(current, name, value);
    }

    /** handleInputChange on a number input. */
    method HandleNumberInput(name: string, value: Num)
      requires IsVehicleNumberField(name)
      modifies this`current
      ensures current == SetNumber(old(current), name, value)
    {
      current := SetNumber(current, name, value);
    }

    /** resetForm: every field empty, id `null`, form closed, not editing. */
    method ResetForm()
      modifies this`current, this`isEditing, this`showForm
      ensures current == EmptyVehicle && !isEditing && !showForm
    {
      current, isEditing, showForm := EmptyVehicle, false, false;
    }

    /** handleSubmit: an edit replaces the vehicles with the form's id, a new
        vehicle is appended with the clock reading `now` as its id; then the
        form resets. */
    method Submit(now: int)
      modifies this`vehicles, this`current, this`isEditing, this`showForm
      ensures old(isEditing) ==> vehicles == UpdatedVehicles(old(vehicles), old(current))
      ensures !old(isEditing) ==> vehicles == old(vehicles) + [old(current).(id := Some(now))]
      ensures current == EmptyVehicle && !isEditing && !showForm
    {
      if isEditing {
        vehicles := UpdatedVehicles(vehicles, current);
      } else {
        vehicles := vehicles + [current.(id := Some(now))];
      }
      ResetForm();
    }

    /** handleEdit: the vehicle is loaded into the open form in edit mode. */
    method Edit(v: Vehicle)
      modifies this`current, this`isEditing, this`showForm
      ensures current == v && isEditing && showForm
    {
      current, isEditing, showForm := v, true, true;
    }

    /** handleDelete. */
    method Delete(id: Option<int>)
      modifies this`vehicles
      ensures vehicles == DeletedVehicles(old(vehicles), id)
    {
      vehicles := DeletedVehicles(vehicles, id);
    }
  }
}
