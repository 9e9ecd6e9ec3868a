/** The client page backed by the REST API: the search over the loaded
    list, the "Con Teléfono" tile, and the form state (input changes,
    loading a client for editing, reset). Loading and saving go through the
    API. */
module CustomersApi {
  import opened Lists
  import opened Js

  /** The five fields of the form. */
  const FormKeys: set<string> := {"nombre", "email", "telefono", "direccion", "fecha_nacimiento"}

  /** The form's initial state, to which resetForm returns. */
  const EmptyCustomerForm: Object := map[
    "nombre" := Str(""), "email" := Str(""), "telefono" := Str(""),
    "direccion" := Str(""), "fecha_nacimiento" := Str("")]

  /** The search keeps a client whose name or e-mail contains the term
      ignoring case, or whose phone contains it exactly. */
  predicate CustomerMatches(c: Object, term: string) {
    TextIncludes(Get(c, "nombre"), term) || TextIncludes(Get(c, "email"), term) ||
    ExactIncludes(Get(c, "telefono"), term)
  }

  /** `filteredClientes`: the matching clients, in list order. */
  function FilteredCustomers(customers: seq<Object>, term: string): (r: seq<Object>)
    ensures IsSubsequence(r, customers)
    ensures forall c :: c in r ==> c in customers && CustomerMatches(c, term)
    ensures forall c :: c in customers && CustomerMatches(c, term) ==> c in r
    ensures multiset(r) <= multiset(customers)
    ensures forall i :: 0 <= i < |customers| && CustomerMatches(customers[i], term) ==>
              multiset(r)[customers[i]] == multiset(customers)[customers[i]]
  {
    FilterIsSubsequence(customers, (c: Object) => CustomerMatches(c, term));
    Filter(customers, (c: Object) => CustomerMatches(c, term))
  }

  /** handleEdit's projection: name and e-mail as they are; phone, address
      and birth date as "" when missing or empty. */
  function EditForm(c: Object): (f: Object)
    ensures f.Keys == FormKeys
    ensures f["nombre"] == Get(c, "nombre") && f["email"] == Get(c, "email")
    ensures forall k :: k in FormKeys - {"nombre", "email"} ==>
              f[k] == if Truthy(Get(c, k)) then Get(c, k) else Str("")
  {
    map["nombre" := Get(c, "nombre"), "email" := Get(c, "email"),
        "telefono" := OrElse(Get(c, "telefono"), Str("")),
        "direccion" := OrElse(Get(c, "direccion"), Str("")),
        "fecha_nacimiento" := OrElse(Get(c, "fecha_nacimiento"), Str(""))]
  }

  /** `c.telefono` is truthy. */
  predicate HasPhone(c: Object) {
    Truthy(Get(c, "telefono"))
  }

  /** The "Con Teléfono" tile, at most the "Total Clientes" tile. */
  function WithPhoneCount(customers: seq<Object>): (n: nat)
    ensures n <= |customers|
  {
    |Filter(customers, HasPhone)|
  }

  /** A client whose phone is a non-empty string is counted. */
  lemma PhoneCounted(customers: seq<Object>, c: Object)
    requires c in customers && Get(c, "telefono").Str? && Get(c, "telefono").s != ""
    ensures WithPhoneCount(customers) > 0
  {
    assert c in Filter(customers, HasPhone);
  }

  /** The client page's state. */
  class CustomersPage {
    var customers: seq<Object>
    var form: Object
    var isEditing: bool
    var editingId: Scalar
    var showForm: bool
    var searchTerm: string

    /** The page once the list has been fetched. */
    constructor (customers0: seq<Object>)
      ensures customers == customers0 && form == EmptyCustomerForm && editingId == Null
      ensures !isEditing && !showForm && searchTerm == ""
    {
      customers, form, editingId := customers0, EmptyCustomerForm, Null;
      isEditing, showForm, searchTerm := false, false, "";
    }

    /** The search box. */
    method SetSearchTerm(term: string)
      modifies this`searchTerm
      ensures searchTerm == term
    {
      searchTerm := term;
    }

    /** handleInputChange: only the named field changes, to the typed value. */
    method HandleInputChange(name: string, value: string)
      modifies this`form
      ensures form.Keys == old(form).Keys + {name}
      ensures Get(form, name) == Str(value)
      ensures forall k :: k != name ==> Get(form, k) == Get(old(form), k)
    {
      form := Assign(form, name, Str(value));
    }

    /** resetForm. */
    method ResetForm()
      modifies this`form, this`isEditing, this`showForm, this`editingId
      ensures form == EmptyCustomerForm && !isEditing && !showForm && editingId == Null
    {
      form, isEditing, showForm, editingId := EmptyCustomerForm, false, false, Null;
    }

    /** What handleSubmit does once the API has saved the form: the list
        as fetched again, and the form reset. */
    method Saved(reloaded: seq<Object>)
      modifies this`customers, this`form, this`isEditing, this`showForm, this`editingId
      ensures customers == reloaded
      ensures form == EmptyCustomerForm && !isEditing && !showForm && editingId == Null
    {
      customers := reloaded;
      ResetForm();
    }

    /** handleEdit: the projection of the client, its `_id`, the open form
        in edit mode. */
    method Edit(c: Object)
      modifies this`form, this`isEditing, this`showForm, this`editingId
      ensures form == EditForm(c) && editingId == Get(c, "_id")
      ensures isEditing && showForm
    {
      form, editingId := EditForm(c), Get(c, "_id");
      isEditing, showForm := true, true;
    }
  }
}
