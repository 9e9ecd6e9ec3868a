/** The vehicle page backed by the REST API: the search over the loaded
    list, the tiles, and the form state (input changes, loading a vehicle
    for editing, reset). Loading and saving go through the API. */
module CarsApi {
  import opened Lists
  import opened Js

  /** The seven fields of the form. */
  const FormKeys: set<string> := {"marca", "modelo", "año", "color", "precio_dia", "disponible", "imagen"}

  /** The form's initial state, to which resetForm returns: every text field
      empty and "disponible" checked. */
  const EmptyCarForm: Object := map[
    "marca" := Str(""), "modelo" := Str(""), "año" := Str(""), "color" := Str(""),
    "precio_dia" := Str(""), "disponible" := Bool(true), "imagen" := Str("")]

  /** The search keeps a vehicle whose make, model or colour contains the
      term ignoring case, or whose year, as text, contains it. */
  predicate CarMatches(car: Object, term: string) {
    TextIncludes(Get(car, "marca"), term) || TextIncludes(Get(car, "modelo"), term) ||
    TextIncludes(Get(car, "color"), term) || ShownIncludes(Get(car, "año"), term)
  }

  /** `filteredVehiculos`: the matching vehicles, in list order. */
  function FilteredCars(cars: seq<Object>, term: string): (r: seq<Object>)
    ensures IsSubsequence(r, cars)
    ensures forall c :: c in r ==> c in cars && CarMatches(c, term)
    ensures forall c :: c in cars && CarMatches(c, term) ==> c in r
    ensures multiset(r) <= multiset(cars)
    ensures forall i :: 0 <= i < |cars| && CarMatches(cars[i], term) ==>
              multiset(r)[cars[i]] == multiset(cars)[cars[i]]
  {
    FilterIsSubsequence(cars, (c: Object) => CarMatches(c, term));
    Filter(cars, (c: Object) => CarMatches(c, term))
  }

  /** A vehicle without any of the four searched fields never matches. */
  lemma MissingFieldsNeverMatch(car: Object, term: string)
    requires "marca" !in car && "modelo" !in car && "color" !in car && "año" !in car
    ensures !CarMatches(car, term)
  {
  }

  /** The value an input event writes: `checked` for a checkbox, `value`
      for every other input. */
  function InputValue(inputType: string, value: string, checked: bool): (v: Scalar)
    ensures inputType == "checkbox" ==> v == Bool(checked)
    ensures inputType != "checkbox" ==> v == Str(value)
  {
    if inputType == "checkbox" then Bool(checked) else Str(value)
  }

  /** handleEdit's projection: the seven form fields of the vehicle as they
      are, a missing or empty image as "". */
  function EditForm(car: Object): (f: Object)
    ensures f.Keys == FormKeys
    ensures forall k :: k in FormKeys && k != "imagen" ==> f[k] == Get(car, k)
    ensures f["imagen"] == if Truthy(Get(car, "imagen")) then Get(car, "imagen") else Str("")
  {
    map["marca" := Get(car, "marca"), "modelo" := Get(car, "modelo"), "año" := Get(car, "año"),
        "color" := Get(car, "color"), "precio_dia" := Get(car, "precio_dia"),
        "disponible" := Get(car, "disponible"), "imagen" := OrElse(Get(car, "imagen"), Str(""))]
  }

  /** `vehiculo.disponible` is truthy. */
  predicate IsAvailable(car: Object) {
    Truthy(Get(car, "disponible"))
  }

  /** The "Disponibles" tile, at most the "Total Vehículos" tile. */
  function AvailableCars(cars: seq<Object>): (n: nat)
    ensures n <= |cars|
  {
    |Filter(cars, IsAvailable)|
  }

  /** The "Precio Promedio" tile: '0' for an empty list, otherwise the mean
      daily rate of the `count` vehicles. */
  datatype AverageTile = ShowZero | ShowAverage(count: nat)

  function AverageTileOf(cars: seq<Object>): (t: AverageTile)
    ensures t == ShowZero <==> |cars| == 0
    ensures t.ShowAverage? ==> t.count == |cars| > 0
  {
    if |cars| > 0 then ShowAverage(|cars|) else ShowZero
  }

  /** The vehicle page's state. */
  class CarsPage {
    var cars: seq<Object>
    var form: Object
    var isEditing: bool
    var showForm: bool
    var editingId: Scalar
    var searchTerm: string

    /** The page once the list has been fetched. */
    constructor (cars0: seq<Object>)
      ensures cars == cars0 && form == EmptyCarForm && editingId == Null
      ensures !isEditing && !showForm && searchTerm == ""
    {
      cars, form, editingId := cars0, EmptyCarForm, Null;
      isEditing, showForm, searchTerm := false, false, "";
    }

    /** The search box. */
    method SetSearchTerm(term: string)
      modifies this`searchTerm
      ensures searchTerm == term
    {
      searchTerm := term;
    }

    /** handleInputChange: only the named field changes. */
    method HandleInputChange(name: string, inputType: string, value: string, checked: bool)
      modifies this`form
      ensures form.Keys == old(form).Keys + {name}
      ensures Get(form, name) == InputValue(inputType, value, checked)
      ensures forall k :: k != name ==> Get(form, k) == Get(old(form), k)
    {
      form := Assign(form, name, InputValue(inputType, value, checked));
    }

    /** resetForm. */
    method ResetForm()
      modifies this`form, this`isEditing, this`showForm, this`editingId
      ensures form == EmptyCarForm && !isEditing && !showForm && editingId == Null
    {
      form, isEditing, showForm, editingId := EmptyCarForm, false, false, Null;
    }

    /** What handleSubmit does once the API has saved the form: the list
        as fetched again, and the form reset. */
    method Saved(reloaded: seq<Object>)
      modifies this`cars, this`form, this`isEditing, this`showForm, this`editingId
      ensures cars == reloaded
      ensures form == EmptyCarForm && !isEditing && !showForm && editingId == Null
    {
      cars := reloaded;
      ResetForm();
    }

    /** handleEdit: the projection of the vehicle, its `_id`, the open form
        in edit mode. */
    method Edit(car: Object)
      modifies this`form, this`isEditing, this`showForm, this`editingId
      ensures form == EditForm(car) && editingId == Get(car, "_id")
      ensures isEditing && showForm
    {
      form, editingId := EditForm(car), Get(car, "_id");
      isEditing, showForm := true, true;
    }
  }
}
