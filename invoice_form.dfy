/**
 * The invoice form (FormularioFactura): its header fields, the two ordered
 * line lists, the handlers that replace them, the totals shown while editing,
 * and the payload built on submit.
 */
module InvoiceForm {
  import opened Wrappers
  import opened JsText
  import opened Invoices

  // ---------------------------------------------------------------------
  // Header fields

  /** The names of the form's header inputs (the `name` attribute `handleChange` reads). */
  datatype Field =
    | ClienteNombre | ClienteCedula | Vehiculo | Placa
    | EstadoPago | FechaEntrada | FechaSalida | Observaciones

  /** `formData`: one string per header input. */
  datatype FormData = FormData(
    clienteNombre: string,
    clienteCedula: string,
    vehiculo: string,
    placa: string,
    estadoPago: string,
    fechaEntrada: string,
    fechaSalida: string,
    observaciones: string)
  {
    function Get(f: Field): string
    {
      match f
      case ClienteNombre => clienteNombre
      case ClienteCedula => clienteCedula
      case Vehiculo => vehiculo
      case Placa => placa
      case EstadoPago => estadoPago
      case FechaEntrada => fechaEntrada
      case FechaSalida => fechaSalida
      case Observaciones => observaciones
    }

    /** `{ ...prev, [name]: value }`: the named field takes the value, every other field keeps its own. */
    function Set(f: Field, v: string): (r: FormData)
      ensures r.Get(f) == v
      ensures forall g :: g != f ==> r.Get(g) == Get(g)
    {
      match f
      case ClienteNombre => this.(clienteNombre := v)
      case ClienteCedula => this.(clienteCedula := v)
      case Vehiculo => this.(vehiculo := v)
      case Placa => this.(placa := v)
      case EstadoPago => this.(estadoPago := v)
      case FechaEntrada => this.(fechaEntrada := v)
      case FechaSalida => this.(fechaSalida := v)
      case Observaciones => this.(observaciones := v)
    }
  }

  /** The defaults: every field empty except the payment state, which starts as `'pendiente'`. */
  const EmptyForm := FormData("", "", "", "", "pendiente", "", "", "")

  lemma EmptyFormFields(f: Field)
    ensures EmptyForm.Get(f) == (if f == EstadoPago then "pendiente" else "")
  {
  }

  /** A form field shows the stored text, and `''` when the invoice has none (an empty one shows as itself). */
  predicate LoadedAs(stored: Option<string>, shown: string)
  {
    if stored.Some? then shown == stored.value else shown == ""
  }

  /** The header of an invoice loaded for editing: each field or `''`, the payment state or `'pendiente'`. */
  function FormFromFactura(f: Factura): (d: FormData)
    ensures f.estadoPago.Some? && f.estadoPago.value != [] ==> d.estadoPago == f.estadoPago.value
    ensures f.estadoPago.None? || f.estadoPago.value == [] ==> d.estadoPago == "pendiente"
    ensures LoadedAs(f.clienteNombre, d.clienteNombre) && LoadedAs(f.clienteCedula, d.clienteCedula)
    ensures LoadedAs(f.vehiculo, d.vehiculo) && LoadedAs(f.placa, d.placa)
    ensures LoadedAs(f.fechaEntrada, d.fechaEntrada) && LoadedAs(f.fechaSalida, d.fechaSalida)
    ensures LoadedAs(f.observaciones, d.observaciones)
  {
    FormData(
      StrOr(f.clienteNombre, ""),
      StrOr(f.clienteCedula, ""),
      StrOr(f.vehiculo, ""),
      StrOr(f.placa, ""),
      StrOr(f.estadoPago, "pendiente"),
      StrOr(f.fechaEntrada, ""),
      StrOr(f.fechaSalida, ""),
      StrOr(f.observaciones, ""))
  }

  /** Loading a stored invoice that has every header field set copies them all verbatim. */
  lemma FormFromCompleteFactura(f: Factura)
    requires f.clienteNombre.Some? && f.clienteCedula.Some? && f.vehiculo.Some? && f.placa.Some?
    requires f.estadoPago.Some? && f.estadoPago.value != []
    requires f.fechaEntrada.Some? && f.fechaSalida.Some? && f.observaciones.Some?
    ensures FormFromFactura(f) == FormData(
              f.clienteNombre.value, f.clienteCedula.value, f.vehiculo.value, f.placa.value,
              f.estadoPago.value, f.fechaEntrada.value, f.fechaSalida.value, f.observaciones.value)
  {
  }

  // ---------------------------------------------------------------------
  // Removing a line by index

  /** `s.filter((_, i) => i !== index)`, element by element. */
  function FilterIndex<T>(s: seq<T>, index: int): (r: seq<T>)
    ensures 0 <= index < |s| ==> r == s[..index] + s[index + 1..]
    ensures !(0 <= index < |s|) ==> r == s
    decreases |s|
  {
    if s == [] then []
    else if index == 0 then s[1..]
    else
      var tail := FilterIndex(s[1..], index - 1);
      assert 0 < index <= |s| - 1 ==> tail == s[1..][..index - 1] + s[index + 1..];
      [s[0]] + tail
  }

  /** Removing an in-range index drops one line and keeps the others in order. */
  lemma RemovedLines<T>(s: seq<T>, index: int, k: nat)
    requires 0 <= index < |s| && k < |s| - 1
    ensures |FilterIndex(s, index)| == |s| - 1
    ensures FilterIndex(s, index)[k] == (if k < index then s[k] else s[k + 1])
  {
  }

  // ---------------------------------------------------------------------
  // The submitted payload

  datatype SubmittedService = SubmittedService(descripcion: string, precio: real, cantidad: int)

  datatype SubmittedPart = SubmittedPart(nombre: string, precioUnitario: real, cantidad: int)

  /** `{ ...formData, servicios, repuestos }` as handed to `onGuardar`. */
  datatype Payload = Payload(datos: FormData, servicios: seq<SubmittedService>, repuestos: seq<SubmittedPart>)

  /**
   * `{ descripcion, precio: parseFloat(precio) || 0, cantidad: parseInt(cantidad) || 1 }`:
   * the quantity is never 0, but a negative one passes through.
   */
  function SubmitService(s: ServiceLine): (r: SubmittedService)
    ensures r.descripcion == s.descripcion
    ensures r.cantidad != 0
    ensures ParseFloat(s.precio).None? ==> r.precio == 0.0
    ensures ParseFloat(s.precio).Some? ==> r.precio == ParseFloat(s.precio).value
    ensures ParseInt(s.cantidad, false).None? ==> r.cantidad == 1
    ensures ParseInt(s.cantidad, false) == Some(0) ==> r.cantidad == 1
    ensures ParseInt(s.cantidad, false).Some? && ParseInt(s.cantidad, false).value != 0 ==>
              r.cantidad == ParseInt(s.cantidad, false).value
  {
    SubmittedService(s.descripcion, NumOr(ParseFloat(s.precio), 0.0), IntOr(ParseInt(s.cantidad, false), 1))
  }

  /** `{ nombre, precio_unitario: parseFloat(...) || 0, cantidad: parseInt(...) || 1 }`; `numero_factura` is dropped. */
  function SubmitPart(p: PartLine): (r: SubmittedPart)
    ensures r.nombre == p.nombre
    ensures r.cantidad != 0
    ensures ParseFloat(p.precioUnitario).None? ==> r.precioUnitario == 0.0
    ensures ParseFloat(p.precioUnitario).Some? ==> r.precioUnitario == ParseFloat(p.precioUnitario).value
    ensures ParseInt(p.cantidad, false).None? ==> r.cantidad == 1
    ensures ParseInt(p.cantidad, false) == Some(0) ==> r.cantidad == 1
    ensures ParseInt(p.cantidad, false).Some? && ParseInt(p.cantidad, false).value != 0 ==>
              r.cantidad == ParseInt(p.cantidad, false).value
  {
    SubmittedPart(p.nombre, NumOr(ParseFloat(p.precioUnitario), 0.0), IntOr(ParseInt(p.cantidad, false), 1))
  }

  function BuildPayload(datos: FormData, servicios: seq<ServiceLine>, repuestos: seq<PartLine>): Payload
  {
    Payload(
      datos,
      seq(|servicios|, i requires 0 <= i < |servicios| => SubmitService(servicios[i])),
      seq(|repuestos|, i requires 0 <= i < |repuestos| => SubmitPart(repuestos[i])))
  }

  /** The payload carries the header as it is and one submitted line per form line, in order. */
  lemma PayloadKeepsLines(datos: FormData, servicios: seq<ServiceLine>, repuestos: seq<PartLine>)
    ensures BuildPayload(datos, servicios, repuestos).datos == datos
    ensures |BuildPayload(datos, servicios, repuestos).servicios| == |servicios|
    ensures |BuildPayload(datos, servicios, repuestos).repuestos| == |repuestos|
    ensures forall i :: 0 <= i < |servicios| ==>
              BuildPayload(datos, servicios, repuestos).servicios[i].descripcion == servicios[i].descripcion
    ensures forall i :: 0 <= i < |repuestos| ==>
              BuildPayload(datos, servicios, repuestos).repuestos[i].nombre == repuestos[i].nombre
  {
  }

  /** No submitted line has quantity 0. */
  lemma PayloadQuantitiesNonZero(datos: FormData, servicios: seq<ServiceLine>, repuestos: seq<PartLine>)
    ensures forall s :: s in BuildPayload(datos, servicios, repuestos).servicios ==> s.cantidad != 0
    ensures forall p :: p in BuildPayload(datos, servicios, repuestos).repuestos ==> p.cantidad != 0
  {
  }

  lemma GarbagePriceIsNaN()
    ensures ParseFloat("abc").None?
  {
    var garbage := "abc";
    TrimStartNoSpace(garbage);
    assert Unsigned(garbage) == garbage;
    ParseFloatNaN(garbage);
  }

  /** An unparsable price is sent as 0 and an empty quantity as 1. */
  lemma SubmitCoercesGarbage()
    ensures SubmitService(ServiceLine("Alineado", "abc", "")) == SubmittedService("Alineado", 0.0, 1)
  {
    GarbagePriceIsNaN();
    assert ParseInt("", false).None?;
  }

  lemma MinusTwoParses()
    ensures ParseInt("-2", false) == Some(-2)
  {
    assert ShowNat(2) == "2";
    assert ShowInt(-2) + [] == "-2";
    ParseIntNoRadixShowInt(-2, []);
  }

  /** A negative quantity is not corrected: `parseInt('-2') || 1` is -2. */
  lemma SubmitKeepsNegativeQuantity()
    ensures SubmitService(ServiceLine("Alineado", "10", "-2")).cantidad == -2
  {
    MinusTwoParses();
  }

  // ---------------------------------------------------------------------
  // The form component's state

  class Formulario {
    var formData: FormData
    var servicios: seq<ServiceLine>
    var repuestos: seq<PartLine>

    /** The state of a fresh form. */
    ghost predicate IsEmpty()
      reads this
    {
      formData == EmptyForm && servicios == [] && repuestos == []
    }

    constructor ()
      ensures IsEmpty()
    {
      formData := EmptyForm;
      servicios := [];
      repuestos := [];
    }

    /** The figures shown under the lines: `totalServicios`, `totalRepuestos`, `totalGeneral`. */
    function Totales(): (t: Totals)
      reads this
      ensures t.totalGeneral == Add(t.totalServicios, t.totalRepuestos)
    {
      CalcularTotales(servicios, repuestos)
    }

    /** The effect run when `facturaEditando` changes: a present invoice replaces the whole state. */
    method LoadForEdit(facturaEditando: Option<Factura>)
      modifies this
      ensures facturaEditando.None? ==>
                formData == old(formData) && servicios == old(servicios) && repuestos == old(repuestos)
      ensures facturaEditando.Some? ==>
                && formData == FormFromFactura(facturaEditando.value)
                && servicios == facturaEditando.value.servicios.GetOr([])
                && repuestos == facturaEditando.value.repuestos.GetOr([])
    {
      if facturaEditando.Some? {
        var f := facturaEditando.value;
        formData := FormFromFactura(f);
        servicios := f.servicios.GetOr([]);
        repuestos := f.repuestos.GetOr([]);
      }
    }

    method HandleChange(name: Field, value: string)
      modifies this`formData
      ensures formData.Get(name) == value
      ensures forall g :: g != name ==> formData.Get(g) == old(formData).Get(g)
    {
      formData := formData.Set(name, value);
    }

    /** Appends one service, and only when the description and the price are both non-empty. */
    method AgregarServicio(descripcion: string, precio: string, cantidad: string)
      modifies this`servicios
      ensures descripcion != [] && precio != [] ==>
                servicios == old(servicios) + [ServiceLine(descripcion, precio, cantidad)]
      ensures descripcion == [] || precio == [] ==> servicios == old(servicios)
    {
      if descripcion != [] && precio != [] {
        servicios := servicios + [ServiceLine(descripcion, precio, cantidad)];
      }
    }

    /** Removes the service at `index`; any other index leaves the list as it is. */
    method EliminarServicio(index: int)
      modifies this`servicios
      ensures 0 <= index < |old(servicios)| ==>
                servicios == old(servicios)[..index] + old(servicios)[index + 1..]
      ensures !(0 <= index < |old(servicios)|) ==> servicios == old(servicios)
    {
      servicios := FilterIndex(servicios, index);
    }

    /** Appends one part, and only when the name and the unit price are both non-empty. */
    method AgregarRepuesto(nombre: string, precioUnitario: string, cantidad: string, numeroFactura: string)
      modifies this`repuestos
      ensures nombre != [] && precioUnitario != [] ==>
                repuestos == old(repuestos) + [PartLine(nombre, precioUnitario, cantidad, numeroFactura)]
      ensures nombre == [] || precioUnitario == [] ==> repuestos == old(repuestos)
    {
      if nombre != [] && precioUnitario != [] {
        repuestos := repuestos + [PartLine(nombre, precioUnitario, cantidad, numeroFactura)];
      }
    }

    /** Removes the part at `index`; any other index leaves the list as it is. */
    method EliminarRepuesto(index: int)
      modifies this`repuestos
      ensures 0 <= index < |old(repuestos)| ==>
                repuestos == old(repuestos)[..index] + old(repuestos)[index + 1..]
      ensures !(0 <= index < |old(repuestos)|) ==> repuestos == old(repuestos)
    {
      repuestos := FilterIndex(repuestos, index);
    }

    method LimpiarFormulario()
      modifies this
      ensures IsEmpty()
    {
      formData := EmptyForm;
      servicios := [];
      repuestos := [];
    }

    /**
     * Builds the payload from the current state, then resets the form. The reset
     * does not wait for the save: the form is emptied whether or not it succeeds.
     */
    method HandleSubmit() returns (enviado: Payload)
      modifies this
      ensures enviado == BuildPayload(old(formData), old(servicios), old(repuestos))
      ensures IsEmpty()
    {
      enviado := BuildPayload(formData, servicios, repuestos);
      LimpiarFormulario();
    }

    /** Resets the form; the caller's `onCancelar` runs afterwards (AppState.HandleCancelarEdicion). */
    method HandleCancelar()
      modifies this
      ensures IsEmpty()
    {
      LimpiarFormulario();
    }
  }

  // ---------------------------------------------------------------------
  // The "add a line" rows under each list

  /** The draft row of ServiciosSection: `{ descripcion: '', precio: '', cantidad: 1 }`. */
  class ServiceDraft {
    var descripcion: string
    var precio: string
    var cantidad: string

    ghost predicate IsReset()
      reads this
    {
      descripcion == "" && precio == "" && cantidad == "1"
    }

    constructor ()
      ensures IsReset()
    {
      descripcion, precio, cantidad := "", "", "1";
    }

    method SetDescripcion(v: string)
      modifies this`descripcion
      ensures descripcion == v
    {
      descripcion := v;
    }

    method SetPrecio(v: string)
      modifies this`precio
      ensures precio == v
    {
      precio := v;
    }

    method SetCantidad(v: string)
      modifies this`cantidad
      ensures cantidad == v
    {
      cantidad := v;
    }

    /**
     * The "+ Agregar" button: when description and price are filled in, hands the
     * draft to the form and resets the draft; otherwise nothing changes.
     */
    method HandleAgregar(form: Formulario)
      modifies this, form`servicios
      ensures old(descripcion) != [] && old(precio) != [] ==>
                && form.servicios == old(form.servicios) + [ServiceLine(old(descripcion), old(precio), old(cantidad))]
                && IsReset()
      ensures old(descripcion) == [] || old(precio) == [] ==>
                && form.servicios == old(form.servicios)
                && descripcion == old(descripcion) && precio == old(precio) && cantidad == old(cantidad)
    {
      if descripcion != [] && precio != [] {
        form.AgregarServicio(descripcion, precio, cantidad);
        descripcion, precio, cantidad := "", "", "1";
      }
    }
  }

  /** The draft row of RepuestosSection: `{ nombre: '', precio_unitario: '', cantidad: 1, numero_factura: '' }`. */
  class PartDraft {
    var nombre: string
    var precioUnitario: string
    var cantidad: string
    var numeroFactura: string

    ghost predicate IsReset()
      reads this
    {
      nombre == "" && precioUnitario == "" && cantidad == "1" && numeroFactura == ""
    }

    constructor ()
      ensures IsReset()
    {
      nombre, precioUnitario, cantidad, numeroFactura := "", "", "1", "";
    }

    method SetNombre(v: string)
      modifies this`nombre
      ensures nombre == v
    {
      nombre := v;
    }

    method SetPrecioUnitario(v: string)
      modifies this`precioUnitario
      ensures precioUnitario == v
    {
      precioUnitario := v;
    }

    method SetCantidad(v: string)
      modifies this`cantidad
      ensures cantidad == v
    {
      cantidad := v;
    }

    method SetNumeroFactura(v: string)
      modifies this`numeroFactura
      ensures numeroFactura == v
    {
      numeroFactura := v;
    }

    /** The "+ Agregar" button of the parts section. */
    method HandleAgregar(form: Formulario)
      modifies this, form`repuestos
      ensures old(nombre) != [] && old(precioUnitario) != [] ==>
                && form.repuestos == old(form.repuestos) +
                     [PartLine(old(nombre), old(precioUnitario), old(cantidad), old(numeroFactura))]
                && IsReset()
      ensures old(nombre) == [] || old(precioUnitario) == [] ==>
                && form.repuestos == old(form.repuestos)
                && nombre == old(nombre) && precioUnitario == old(precioUnitario)
                && cantidad == old(cantidad) && numeroFactura == old(numeroFactura)
    {
      if nombre != [] && precioUnitario != [] {
        form.AgregarRepuesto(nombre, precioUnitario, cantidad, numeroFactura);
        nombre, precioUnitario, cantidad, numeroFactura := "", "", "1", "";
      }
    }
  }
}
