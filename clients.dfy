/** The client page over mock data: the client list, the form that creates,
    edits and deletes clients, the client-type badge and the summary tiles. */
module Clients {
  import opened Wrappers
  import opened Lists
  import opened Records

  /** The form's initial state, to which resetForm returns: every field
      empty, id `null`, type "Regular". */
  const EmptyClient: Client :=
    Client(None, "", "", "", "", "", "", "", "", "", "", "", "Regular", "")

  /** The label of the type badge: the client's type, "Regular" when empty. */
  function TypeLabel(c: Client): (shown: string)
    ensures shown != ""
    ensures c.tipoCliente != "" ==> shown == c.tipoCliente
    ensures c.tipoCliente == "" ==> shown == "Regular"
  {
    if c.tipoCliente == "" then "Regular" else c.tipoCliente
  }

  /** The Bootstrap colours of the type badge. */
  datatype Badge = Warning | Info | Success

  /** Premium clients get the warning colour, corporate ones the info colour,
      every other type the success colour. */
  function BadgeOf(c: Client): (b: Badge)
    ensures b == Warning <==> c.tipoCliente == "Premium"
    ensures b == Info <==> c.tipoCliente == "Corporativo"
  {
    if c.tipoCliente == "Premium" then Warning
    else if c.tipoCliente == "Corporativo" then Info
    else Success
  }

  predicate IsPremium(c: Client) {
    c.tipoCliente == "Premium"
  }

  predicate IsCorporate(c: Client) {
    c.tipoCliente == "Corporativo"
  }

  /** The "Clientes Premium" tile. */
  function PremiumCount(clients: seq<Client>): (n: nat)
    ensures n <= |clients|
  {
    |Filter(clients, IsPremium)|
  }

  /** The "Clientes Corporativos" tile. */
  function CorporateCount(clients: seq<Client>): (n: nat)
    ensures n <= |clients|
  {
    |Filter(clients, IsCorporate)|
  }

  /** No client is both, so the two tiles add up to at most the total. */
  lemma PremiumAndCorporateWithinTotal(clients: seq<Client>)
    ensures PremiumCount(clients) + CorporateCount(clients) <= |clients|
  {
    DisjointCounts(clients, IsPremium, IsCorporate);
  }

  /** The inputs of the form, all of which write their value as typed. */
  predicate IsClientTextField(name: string) {
    name in {"nombre", "apellido", "cedula", "email", "telefono", "ciudad", "direccion", "licencia", "fecha_emision_licencia", "fecha_vencimiento_licencia", "fecha_nacimiento", "tipo_cliente", "notas"}
  }

  /** The field `name` of the form. */
  function FieldText(c: Client, name: string): string
    requires IsClientTextField(name)
  {
    match name
    case "nombre" => c.nombre
    case "apellido" => c.apellido
    case "cedula" => c.cedula
    case "email" => c.email
    case "telefono" => c.telefono
    case "ciudad" => c.ciudad
    case "direccion" => c.direccion
    case "licencia" => c.licencia
    case "fecha_emision_licencia" => c.fechaEmisionLicencia
    case "fecha_vencimiento_licencia" => c.fechaVencimientoLicencia
    case "fecha_nacimiento" => c.fechaNacimiento
    case "tipo_cliente" => c.tipoCliente
    case _ => c.notas
  }

  /** `{...c, [name]: value}`: the named field reads back the value, every
      other field and the id keep theirs. */
  function SetText(c: Client, name: string, value: string): (r: Client)
    requires IsClientTextField(name)
    ensures FieldText(r, name) == value
    ensures forall m :: IsClientTextField(m) && m != name ==> FieldText(r, m) == FieldText(c, m)
    ensures r.id == c.id
  {
    match name
    case "nombre" => c.(nombre := value)
    case "apellido" => c.(apellido := value)
    case "cedula" => c.(cedula := value)
    case "email" => c.(email := value)
    case "telefono" => c.(telefono := value)
    case "ciudad" => c.(ciudad := value)
    case "direccion" => c.(direccion := value)
    case "licencia" => c.(licencia := value)
    case "fecha_emision_licencia" => c.(fechaEmisionLicencia := value)
    case "fecha_vencimiento_licencia" => c.(fechaVencimientoLicencia := value)
    case "fecha_nacimiento" => c.(fechaNacimiento := value)
    case "tipo_cliente" => c.(tipoCliente := value)
    case _ => c.(notas := value)
  }

  /** The list after saving an edit: each client with the form's id is
      replaced by the form, every other client stays in place. */
  function UpdatedClients(clients: seq<Client>, form: Client): (r: seq<Client>)
    ensures |r| == |clients|
    ensures forall i :: 0 <= i < |r| ==> r[i] == if clients[i].id == form.id then form else clients[i]
  {
    ReplaceWhere(clients, (c: Client) => c.id == form.id, form)
  }

  /** The list after deleting `id`: the clients with another id, in order. */
  function DeletedClients(clients: seq<Client>, id: Option<int>): (r: seq<Client>)
    ensures IsSubsequence(r, clients)
    ensures forall c :: c in r ==> c in clients && c.id != id
    ensures forall c :: c in clients && c.id != id ==> c in r
    ensures |r| == |clients| - |Filter(clients, (c: Client) => c.id == id)|
  {
    FilterIsSubsequence(clients, (c: Client) => c.id != id);
    FilterComplement(clients, (c: Client) => c.id == id, (c: Client) => c.id != id);
    Filter(clients, (c: Client) => c.id != id)
  }

  /** The client page's state. */
  class ClientsPage {
    var clients: seq<Client>
    var current: Client
    var isEditing: bool

    /** The page once its mock data has loaded. */
    constructor (clients0: seq<Client>)
      ensures clients == clients0 && current == EmptyClient && !isEditing
    {
      clients, current, isEditing := clients0, EmptyClient, false;
    }

    /** handleInputChange. */
    method HandleInputChange(name: string, value: string)
      requires IsClientTextField(name)
      modifies this`current
      ensures current == SetText(old(current), name, value)
    {
      current := SetText(current, name, value);
    }

    /** resetForm. */
    method ResetForm()
      modifies this`current, this`isEditing
      ensures current == EmptyClient && !isEditing
    {
      current, isEditing := EmptyClient, false;
    }

    /** handleSubmit: an edit replaces the clients with the form's id, a new
        client is appended with the clock reading `now` as its id; then the
        form resets. */
    method Submit(now: int)
      modifies this`clients, this`current, this`isEditing
      ensures old(isEditing) ==> clients == UpdatedClients(old(clients), old(current))
      ensures !old(isEditing) ==> clients == old(clients) + [old(current).(id := Some(now))]
      ensures current == EmptyClient && !isEditing
    {
      if isEditing {
        clients := UpdatedClients(clients, current);
      } else {
        clients := clients + [current.(id := Some(now))];
      }
      ResetForm();
    }

    /** handleEdit: the client is loaded into the form verbatim, in edit mode. */
    method Edit(c: Client)
      modifies this`current, this`isEditing
      ensures current == c && isEditing
    {
      current, isEditing := c, true;
    }

    /** handleDelete. */
    method Delete(id: Option<int>)
      modifies this`clients
      ensures clients == DeletedClients(old(clients), id)
    {
      clients := DeletedClients(clients, id);
    }
  }
}
