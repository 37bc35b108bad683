/**
 * The computations of the client service (clientesService.js): the record that
 * create and update send, and the per-client history statistics computed from
 * the client's invoices (fetched newest first).
 */
module Clientes {
  import opened Wrappers
  import opened JsText
  import opened Invoices
  import Dashboard

  // ---------------------------------------------------------------------
  // The client record

  /** The client as the form passes it; `None` is a missing property. */
  datatype ClienteInput = ClienteInput(
    nombre: Option<string>,
    telefono: Option<string>,
    email: Option<string>,
    direccion: Option<string>,
    notas: Option<string>)

  /** The row sent to the `clientes` table; `None` is SQL `null`. */
  datatype ClienteRecord = ClienteRecord(
    nombre: Option<string>,
    telefono: Option<string>,
    email: Option<string>,
    direccion: Option<string>,
    notas: Option<string>)

  /** `x || null` on an optional string: missing and empty both become `null`. */
  function NullIfEmpty(x: Option<string>): (r: Option<string>)
    ensures r.None? <==> x.None? || x.value == []
    ensures r.Some? ==> r == x
  {
    if x.Some? && x.value != [] then x else None
  }

  /** The object `crearCliente` inserts. */
  function RegistroCrear(c: ClienteInput): (r: ClienteRecord)
    ensures r.nombre == c.nombre
    ensures r.telefono.None? <==> c.telefono.None? || c.telefono.value == []
    ensures r.email.None? <==> c.email.None? || c.email.value == []
    ensures r.direccion.None? <==> c.direccion.None? || c.direccion.value == []
    ensures r.notas.None? <==> c.notas.None? || c.notas.value == []
    ensures r.telefono.Some? ==> r.telefono == c.telefono
    ensures r.email.Some? ==> r.email == c.email
    ensures r.direccion.Some? ==> r.direccion == c.direccion
    ensures r.notas.Some? ==> r.notas == c.notas
  {
    ClienteRecord(c.nombre, NullIfEmpty(c.telefono), NullIfEmpty(c.email), NullIfEmpty(c.direccion), NullIfEmpty(c.notas))
  }

  /** The object `actualizarCliente` writes over the row with the given id. */
  function RegistroActualizar(c: ClienteInput): ClienteRecord
  {
    RegistroCrear(c)
  }

  /** Creating and updating a client write the same record for the same input. */
  lemma CrearYActualizarCoinciden(c: ClienteInput)
    ensures RegistroActualizar(c) == RegistroCrear(c)
  {
  }

  /** Building the record twice changes nothing more: `null` stays `null`, text stays text. */
  lemma RegistroIdempotente(c: ClienteInput)
    ensures var r := RegistroCrear(c);
            RegistroCrear(ClienteInput(r.nombre, r.telefono, r.email, r.direccion, r.notas)) == r
  {
  }

  // ---------------------------------------------------------------------
  // Money spent

  /**
   * `factura.factura_servicios?.reduce(...) || 0`: a missing collection and a NaN
   * fold both contribute 0.
   */
  function GastoServicios(f: Factura): (r: real)
    ensures f.servicios.Some? && TotalServicios(f.servicios.value).Some? ==>
              r == TotalServicios(f.servicios.value).value
    ensures f.servicios.None? || TotalServicios(f.servicios.value).None? ==> r == 0.0
  {
    match f.servicios
    case None => 0.0
    case Some(items) => NumOr(TotalServicios(items), 0.0)
  }

  /** `factura.factura_repuestos?.reduce(...) || 0`. */
  function GastoRepuestos(f: Factura): (r: real)
    ensures f.repuestos.Some? && TotalRepuestos(f.repuestos.value).Some? ==>
              r == TotalRepuestos(f.repuestos.value).value
    ensures f.repuestos.None? || TotalRepuestos(f.repuestos.value).None? ==> r == 0.0
  {
    match f.repuestos
    case None => 0.0
    case Some(items) => NumOr(TotalRepuestos(items), 0.0)
  }

  /**
   * What one invoice adds to the client's spending, `totalServicios + totalRepuestos`.
   * The source adds them to the running sum one after the other; with exact
   * arithmetic that is the same as adding their sum.
   */
  function GastoFactura(f: Factura): real
  {
    GastoServicios(f) + GastoRepuestos(f)
  }

  /** `xs.reduce((sum, x) => sum + amount(x), acc)` */
  function SumFold<T>(amount: T -> real, acc: real, xs: seq<T>): real
    decreases |xs|
  {
    if xs == [] then acc else SumFold(amount, acc + amount(xs[0]), xs[1..])
  }

  /** The reference sum of the amounts, defined by the first element. */
  function SumOf<T>(amount: T -> real, xs: seq<T>): real
    decreases |xs|
  {
    if xs == [] then 0.0 else amount(xs[0]) + SumOf(amount, xs[1..])
  }

  /** The fold started at `acc` is `acc` plus the sum of the amounts. */
  lemma {:induction false} SumFoldIsSum<T>(amount: T -> real, acc: real, xs: seq<T>)
    ensures SumFold(amount, acc, xs) == acc + SumOf(amount, xs)
    decreases |xs|
  {
    if xs != [] {
      SumFoldIsSum(amount, acc + amount(xs[0]), xs[1..]);
    }
  }

  /** The sum over a concatenation is the sum of the two sums. */
  lemma {:induction false} SumOfAppend<T>(amount: T -> real, xs: seq<T>, ys: seq<T>)
    ensures SumOf(amount, xs + ys) == SumOf(amount, xs) + SumOf(amount, ys)
    decreases |xs|
  {
    if xs == [] {
      assert xs + ys == ys;
    } else {
      assert (xs + ys)[1..] == xs[1..] + ys;
      SumOfAppend(amount, xs[1..], ys);
    }
  }

  /** `totalGastado`: the spending of every invoice, folded from 0. */
  function TotalGastado(fs: seq<Factura>): (r: real)
    ensures r == SumOf(GastoFactura, fs)
  {
    SumFoldIsSum(GastoFactura, 0.0, fs);
    SumFold(GastoFactura, 0.0, fs)
  }

  /**
   * Where the invoice's general total is a number, the client service counts the
   * same amount for it as the invoice totals do.
   */
  lemma GastoMatchesTotales(f: Factura)
    requires TotalesDeFactura(f).totalGeneral.Some?
    ensures GastoFactura(f) == TotalesDeFactura(f).totalGeneral.value
  {
    var t := TotalesDeFactura(f);
    FoldSumIsSum(Some(0.0), ServiceValues(f.servicios.GetOr([])));
    FoldSumIsSum(Some(0.0), PartValues(f.repuestos.GetOr([])));
    assert TotalServicios(f.servicios.GetOr([])) == t.totalServicios;
    assert TotalRepuestos(f.repuestos.GetOr([])) == t.totalRepuestos;
    assert TotalServicios([]) == Some(0.0) && TotalRepuestos([]) == Some(0.0);
  }

  /** An invoice with an unparsable service line still contributes its parts. */
  lemma NaNServicesContributeNothing(f: Factura)
    requires f.servicios.Some? && TotalServicios(f.servicios.value).None?
    ensures GastoFactura(f) == GastoRepuestos(f)
  {
  }

  // ---------------------------------------------------------------------
  // Counting by payment state

  /** `facturas.filter(f => f.estado_pago === estado).length` */
  function CountWithState(fs: seq<Factura>, estado: string): (n: nat)
    ensures n <= |fs|
    decreases |fs|
  {
    if fs == [] then 0
    else (if fs[0].estadoPago == Some(estado) then 1 else 0) + CountWithState(fs[1..], estado)
  }

  /** `'pendiente'` and `'pagado'` are exclusive, so together they count at most every invoice. */
  lemma {:induction false} PendingAndPaidAtMostTotal(fs: seq<Factura>)
    ensures CountWithState(fs, "pendiente") + CountWithState(fs, "pagado") <= |fs|
    decreases |fs|
  {
    if fs != [] {
      PendingAndPaidAtMostTotal(fs[1..]);
    }
  }

  lemma {:induction false} CountWithStateAppend(fs: seq<Factura>, f: Factura, estado: string)
    ensures CountWithState(fs + [f], estado) ==
              CountWithState(fs, estado) + (if f.estadoPago == Some(estado) then 1 else 0)
    decreases |fs|
  {
    if fs == [] {
      assert fs + [f] == [f];
    } else {
      assert (fs + [f])[1..] == fs[1..] + [f];
      CountWithStateAppend(fs[1..], f, estado);
    }
  }

  /**
   * The dashboard and the client history agree on paid invoices; the dashboard's
   * pending count also takes in every state other than `'pagado'`, so it is at
   * least the client history's.
   */
  lemma {:induction false} DashboardAgreesOnPaid(fs: seq<Factura>, n: nat)
    requires n <= |fs|
    ensures Dashboard.CountPaid(fs, n) == CountWithState(fs[..n], "pagado")
    ensures Dashboard.CountPending(fs, n) >= CountWithState(fs[..n], "pendiente")
  {
    if n > 0 {
      DashboardAgreesOnPaid(fs, n - 1);
      assert fs[..n] == fs[..n - 1] + [fs[n - 1]];
      CountWithStateAppend(fs[..n - 1], fs[n - 1], "pagado");
      CountWithStateAppend(fs[..n - 1], fs[n - 1], "pendiente");
    }
  }

  // ---------------------------------------------------------------------
  // The stats

  datatype ClienteStats = ClienteStats(
    totalFacturas: nat,
    totalGastado: real,
    facturasPendientes: nat,
    facturasPagadas: nat,
    ultimaVisita: Option<string>)

  /** `facturas[0]?.created_at || null`: the newest invoice's date, or `null`. */
  function UltimaVisita(fs: seq<Factura>): (r: Option<string>)
    ensures fs == [] ==> r.None?
    ensures fs != [] ==> r == NullIfEmpty(fs[0].createdAt)
  {
    if fs == [] then None else NullIfEmpty(fs[0].createdAt)
  }

  /** `obtenerEstadisticasCliente` over the fetched invoices. */
  function EstadisticasCliente(fs: seq<Factura>): (s: ClienteStats)
    ensures s.totalFacturas == |fs|
    ensures s.totalGastado == SumOf(GastoFactura, fs)
    ensures s.facturasPendientes + s.facturasPagadas <= s.totalFacturas
  {
    PendingAndPaidAtMostTotal(fs);
    ClienteStats(
      |fs|,
      TotalGastado(fs),
      CountWithState(fs, "pendiente"),
      CountWithState(fs, "pagado"),
      UltimaVisita(fs))
  }

  /** A client without invoices has spent nothing and has no last visit. */
  lemma NoInvoicesStats()
    ensures EstadisticasCliente([]) == ClienteStats(0, 0.0, 0, 0, None)
  {
  }
}
