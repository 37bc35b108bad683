/**
 * The dashboard (Dashboard.jsx): on mount it fetches every invoice, counts the
 * paid and the pending ones, and sums the general total of the paid ones.
 */
module Dashboard {
  import opened Wrappers
  import opened JsText
  import opened Invoices

  /** The `stats` state: three counters and the paid revenue. */
  datatype Stats = Stats(totalFacturas: nat, facturasPendientes: nat, facturasPagadas: nat, ingresosTotales: JsNum)

  const ZeroStats := Stats(0, 0, 0, Some(0.0))

  /** `factura.estado_pago === 'pagado'`: exact, case-sensitive comparison; anything else is pending. */
  predicate IsPaid(f: Factura)
  {
    f.estadoPago == Some("pagado")
  }

  /**
   * The general total of an invoice, as the form computes it: what
   * `facturasService.calcularTotales(factura).totalGeneral` is evidently meant to be.
   * The loop and its specification are written for any per-invoice total `total`;
   * the component passes this one.
   */
  function GeneralTotal(f: Factura): JsNum
  {
    TotalesDeFactura(f).totalGeneral
  }

  // ---------------------------------------------------------------------
  // What the loop has computed after the first `n` invoices

  function CountPaid(fs: seq<Factura>, n: nat): nat
    requires n <= |fs|
  {
    if n == 0 then 0 else CountPaid(fs, n - 1) + (if IsPaid(fs[n - 1]) then 1 else 0)
  }

  function CountPending(fs: seq<Factura>, n: nat): nat
    requires n <= |fs|
  {
    if n == 0 then 0 else CountPending(fs, n - 1) + (if IsPaid(fs[n - 1]) then 0 else 1)
  }

  /** The running `totalIngresos`: only a paid invoice adds its general total. */
  function PaidRevenue(fs: seq<Factura>, n: nat, total: Factura -> JsNum): JsNum
    requires n <= |fs|
  {
    if n == 0 then Some(0.0)
    else if IsPaid(fs[n - 1]) then Add(PaidRevenue(fs, n - 1, total), total(fs[n - 1]))
    else PaidRevenue(fs, n - 1, total)
  }

  /** The stats a successful load of `fs` produces. */
  function Estadisticas(fs: seq<Factura>, total: Factura -> JsNum): Stats
  {
    Stats(|fs|, CountPending(fs, |fs|), CountPaid(fs, |fs|), PaidRevenue(fs, |fs|, total))
  }

  // ---------------------------------------------------------------------
  // Reference definitions and the properties of the stats

  /** The totals of the paid invoices, in list order. */
  function PaidGeneralTotals(fs: seq<Factura>, total: Factura -> JsNum): (r: seq<JsNum>)
    ensures |r| <= |fs|
    decreases |fs|
  {
    if fs == [] then []
    else (if IsPaid(fs[0]) then [total(fs[0])] else []) + PaidGeneralTotals(fs[1..], total)
  }

  lemma {:induction false} PaidGeneralTotalsAppend(fs: seq<Factura>, f: Factura, total: Factura -> JsNum)
    ensures PaidGeneralTotals(fs + [f], total) ==
              PaidGeneralTotals(fs, total) + (if IsPaid(f) then [total(f)] else [])
    decreases |fs|
  {
    if fs == [] {
      assert fs + [f] == [f];
    } else {
      assert (fs + [f])[1..] == fs[1..] + [f];
      PaidGeneralTotalsAppend(fs[1..], f, total);
    }
  }

  /** Every invoice is either paid or pending: the two counters add up to the number seen. */
  lemma {:induction false} CountsPartition(fs: seq<Factura>, n: nat)
    requires n <= |fs|
    ensures CountPaid(fs, n) + CountPending(fs, n) == n
  {
    if n > 0 {
      CountsPartition(fs, n - 1);
    }
  }

  /** The revenue is the sum of the general totals of exactly the paid invoices. */
  lemma {:induction false} PaidRevenueIsSum(fs: seq<Factura>, n: nat, total: Factura -> JsNum)
    requires n <= |fs|
    ensures PaidRevenue(fs, n, total) == Sum(PaidGeneralTotals(fs[..n], total))
  {
    if n > 0 {
      var last := fs[n - 1];
      assert fs[..n] == fs[..n - 1] + [last];
      PaidRevenueIsSum(fs, n - 1, total);
      PaidGeneralTotalsAppend(fs[..n - 1], last, total);
      if IsPaid(last) {
        var t := total(last);
        SumAppend(PaidGeneralTotals(fs[..n - 1], total), [t]);
        assert Sum([t]) == Add(t, Some(0.0));
      } else {
        assert PaidGeneralTotals(fs[..n - 1], total) + [] == PaidGeneralTotals(fs[..n - 1], total);
      }
    }
  }

  /** `ingresosTotales` after a load is the sum of the totals of the paid invoices. */
  lemma IngresosArePaidTotals(fs: seq<Factura>, total: Factura -> JsNum)
    ensures Estadisticas(fs, total).ingresosTotales == Sum(PaidGeneralTotals(fs, total))
  {
    PaidRevenueIsSum(fs, |fs|, total);
    assert fs[..|fs|] == fs;
  }

  /** A list with no paid invoice counts all of them as pending and earns nothing. */
  lemma {:induction false} NoPaidInvoices(fs: seq<Factura>, n: nat, total: Factura -> JsNum)
    requires n <= |fs|
    requires forall i :: 0 <= i < n ==> !IsPaid(fs[i])
    ensures CountPending(fs, n) == n && CountPaid(fs, n) == 0 && PaidRevenue(fs, n, total) == Some(0.0)
  {
    if n > 0 {
      NoPaidInvoices(fs, n - 1, total);
    }
  }

  /** Any state other than exactly `'pagado'`, a missing one or a differently spelt one included, counts as pending. */
  lemma PendingIsEverythingElse(f: Factura, total: Factura -> JsNum)
    requires f.estadoPago != Some("pagado")
    ensures Estadisticas([f], total).facturasPendientes == 1 && Estadisticas([f], total).facturasPagadas == 0
    ensures Estadisticas([f], total).ingresosTotales == Some(0.0)
  {
    var fs := [f];
    assert !IsPaid(fs[0]);
    assert CountPaid(fs, 1) == 0 && CountPending(fs, 1) == 1 && PaidRevenue(fs, 1, total) == Some(0.0);
  }

  lemma EmptyListStats(total: Factura -> JsNum)
    ensures Estadisticas([], total) == ZeroStats
  {
  }

  // ---------------------------------------------------------------------
  // The component

  /** The `forEach` over the fetched invoices, with its three mutable counters. */
  method Aggregate(facturas: seq<Factura>, total: Factura -> JsNum) returns (s: Stats)
    ensures s == Estadisticas(facturas, total)
    ensures s.facturasPagadas + s.facturasPendientes == s.totalFacturas == |facturas|
  {
    var totalIngresos: JsNum := Some(0.0);
    var facturasPagadas: nat := 0;
    var facturasPendientes: nat := 0;
    var i := 0;
    while i < |facturas|
      invariant 0 <= i <= |facturas|
      invariant facturasPagadas == CountPaid(facturas, i)
      invariant facturasPendientes == CountPending(facturas, i)
      invariant totalIngresos == PaidRevenue(facturas, i, total)
    {
      var factura := facturas[i];
      if IsPaid(factura) {
        facturasPagadas := facturasPagadas + 1;
        totalIngresos := Add(totalIngresos, total(factura));
      } else {
        facturasPendientes := facturasPendientes + 1;
      }
      i := i + 1;
    }
    CountsPartition(facturas, |facturas|);
    s := Stats(|facturas|, facturasPendientes, facturasPagadas, totalIngresos);
  }

  class Dashboard {
    var stats: Stats
    var cargando: bool

    constructor ()
      ensures stats == ZeroStats && cargando
    {
      stats := ZeroStats;
      cargando := true;
    }

    /**
     * `cargarEstadisticas`, given the outcome of the fetch: a list replaces the
     * stats, an error leaves them as they were; loading ends either way.
     */
    method CargarEstadisticas(fetched: Result<seq<Factura>, string>)
      modifies this
      ensures !cargando
      ensures fetched.Err? ==> stats == old(stats)
      ensures fetched.Ok? ==> stats == Estadisticas(fetched.value, GeneralTotal)
    {
      cargando := true;
      if fetched.Ok? {
        var s := Aggregate(fetched.value, GeneralTotal);
        stats := s;
      }
      cargando := false;
    }
  }

  // ---------------------------------------------------------------------
  // The load as written: `calcularTotales` is not a member of the service object

  /**
   * The stats after a load when `facturasService.calcularTotales` is undefined:
   * the first invoice's call throws, the `catch` swallows it, and the stats keep
   * their previous value; only an empty list gets through the loop.
   */
  function StatsAsWritten(previas: Stats, fetched: Result<seq<Factura>, string>): Stats
  {
    if fetched.Ok? && fetched.value == [] then ZeroStats else previas
  }

  /** With one paid invoice the dashboard as written still shows zero invoices. */
  lemma StatsAsWrittenIgnoresInvoices(f: Factura)
    requires IsPaid(f)
    ensures StatsAsWritten(ZeroStats, Ok([f])).totalFacturas == 0
    ensures Estadisticas([f], GeneralTotal).totalFacturas == 1 && Estadisticas([f], GeneralTotal).facturasPagadas == 1
  {
    var fs := [f];
    assert IsPaid(fs[0]);
    assert CountPaid(fs, 1) == 1;
  }
}
