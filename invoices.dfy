/**
 * Invoices (facturas) and their line items, and the totals computed from them.
 *
 * Every total in the application is a left fold, `reduce((sum, x) => sum + value(x), 0)`,
 * where a line's value is `parseFloat(price) * parseInt(quantity)`. A line whose price or
 * quantity does not parse is NaN, and NaN is absorbing, so a single such line makes the
 * whole fold NaN.
 */
module Invoices {
  import opened Wrappers
  import opened JsText

  /** A service line as the invoice form holds it; price and quantity are kept as typed. */
  datatype ServiceLine = ServiceLine(descripcion: string, precio: string, cantidad: string)

  /** A part line; `numeroFactura` is the supplier's invoice number, optional free text. */
  datatype PartLine = PartLine(nombre: string, precioUnitario: string, cantidad: string, numeroFactura: string)

  /**
   * A stored invoice as the backend returns it. Every field may be missing (`None`);
   * the line collections are `None` when the query did not include them.
   */
  datatype Factura = Factura(
    id: string,
    clienteNombre: Option<string>,
    clienteCedula: Option<string>,
    vehiculo: Option<string>,
    placa: Option<string>,
    estadoPago: Option<string>,
    fechaEntrada: Option<string>,
    fechaSalida: Option<string>,
    observaciones: Option<string>,
    createdAt: Option<string>,
    servicios: Option<seq<ServiceLine>>,
    repuestos: Option<seq<PartLine>>)

  /** `parseFloat(s.precio) * parseInt(s.cantidad)` */
  function ServiceValue(s: ServiceLine): JsNum
  {
    Mul(ParseFloat(s.precio), NumOfInt(ParseInt(s.cantidad, false)))
  }

  /** `parseFloat(r.precio_unitario) * parseInt(r.cantidad)` */
  function PartValue(p: PartLine): JsNum
  {
    Mul(ParseFloat(p.precioUnitario), NumOfInt(ParseInt(p.cantidad, false)))
  }

  /** `items.map(value)`. */
  function MapValues<T>(value: T -> JsNum, items: seq<T>): (v: seq<JsNum>)
    ensures |v| == |items|
    decreases |items|
  {
    if items == [] then [] else [value(items[0])] + MapValues(value, items[1..])
  }

  lemma {:induction false} MapValuesAt<T>(value: T -> JsNum, items: seq<T>, i: nat)
    requires i < |items|
    ensures MapValues(value, items)[i] == value(items[i])
    decreases i
  {
    if i > 0 {
      MapValuesAt(value, items[1..], i - 1);
    }
  }

  function ServiceValues(items: seq<ServiceLine>): seq<JsNum>
  {
    MapValues(ServiceValue, items)
  }

  function PartValues(items: seq<PartLine>): seq<JsNum>
  {
    MapValues(PartValue, items)
  }

  /** Removing the element at `j` removes one occurrence of it from the multiset. */
  lemma RemoveOne<T>(s: seq<T>, j: nat)
    requires j < |s|
    ensures multiset(s[..j] + s[j + 1..]) == multiset(s) - multiset{s[j]}
  {
    assert s[j..] == [s[j]] + s[j + 1..];
    assert s == s[..j] + s[j..];
  }

  lemma {:induction false} MapValuesConcat<T>(value: T -> JsNum, a: seq<T>, b: seq<T>)
    ensures MapValues(value, a + b) == MapValues(value, a) + MapValues(value, b)
    decreases |a|
  {
    if a != [] {
      assert (a + b)[1..] == a[1..] + b;
      MapValuesConcat(value, a[1..], b);
    } else {
      assert a + b == b;
    }
  }

  lemma MapValuesCons<T>(value: T -> JsNum, x: T, rest: seq<T>)
    ensures MapValues(value, [x] + rest) == [value(x)] + MapValues(value, rest)
  {
    assert ([x] + rest)[1..] == rest;
  }

  /** A sequence is its prefix, the element at `j`, and its suffix. */
  lemma SplitAt<T>(s: seq<T>, j: nat)
    requires j < |s|
    ensures s == s[..j] + ([s[j]] + s[j + 1..])
  {
    assert s[j..] == [s[j]] + s[j + 1..];
    assert s == s[..j] + s[j..];
  }

  /** The image of `s` splits around position `j` as `s` does. */
  lemma MapValuesSplit<T>(value: T -> JsNum, s: seq<T>, j: nat)
    requires j < |s|
    ensures MapValues(value, s) ==
              MapValues(value, s[..j]) + ([value(s[j])] + MapValues(value, s[j + 1..]))
  {
    var left, right := s[..j], s[j + 1..];
    SplitAt(s, j);
    MapValuesConcat(value, left, [s[j]] + right);
    MapValuesCons(value, s[j], right);
  }

  lemma MultisetInsert<T>(left: seq<T>, v: T, right: seq<T>)
    ensures multiset(left + ([v] + right)) == multiset(left + right) + multiset{v}
  {
  }

  /**
   * The head of `s1` occurs in its permutation `s2` at some `j`, and what remains
   * of both after taking it out is again a permutation.
   */
  lemma FindHead<T>(s1: seq<T>, s2: seq<T>) returns (j: nat)
    requires s1 != [] && multiset(s1) == multiset(s2)
    ensures j < |s2| && s2[j] == s1[0]
    ensures multiset(s1[1..]) == multiset(s2[..j] + s2[j + 1..])
  {
    j := OccursAt(s1[0], s2);
    RemoveOne(s2, j);
    HeadTail(s1);
  }

  /** An element of a sequence's multiset occurs at some position. */
  lemma OccursAt<T>(x: T, s: seq<T>) returns (j: nat)
    requires x in multiset(s)
    ensures j < |s| && s[j] == x
  {
    j :| 0 <= j < |s| && s[j] == x;
  }

  lemma HeadTail<T>(s: seq<T>)
    requires s != []
    ensures multiset(s[1..]) == multiset(s) - multiset{s[0]}
  {
    assert s == [s[0]] + s[1..];
  }

  /** One step of the permutation argument: matching heads, and tails whose images agree. */
  lemma MapValuesPermutationStep<T>(value: T -> JsNum, s1: seq<T>, s2: seq<T>, j: nat)
    requires s1 != [] && j < |s2| && s2[j] == s1[0]
    requires multiset(MapValues(value, s1[1..])) == multiset(MapValues(value, s2[..j] + s2[j + 1..]))
    ensures multiset(MapValues(value, s1)) == multiset(MapValues(value, s2))
  {
    var v := value(s1[0]);
    MapValuesSplit(value, s2, j);
    MapValuesConcat(value, s2[..j], s2[j + 1..]);
    MultisetInsert(MapValues(value, s2[..j]), v, MapValues(value, s2[j + 1..]));
    assert MapValues(value, s1) == [v] + MapValues(value, s1[1..]);
  }

  /** Mapping keeps permutations: the mapped sequences have the same multiset of values. */
  lemma {:induction false} MapValuesPermutation<T>(value: T -> JsNum, s1: seq<T>, s2: seq<T>)
    requires multiset(s1) == multiset(s2)
    ensures multiset(MapValues(value, s1)) == multiset(MapValues(value, s2))
    decreases |s1|
  {
    if s1 != [] {
      var j := FindHead(s1, s2);
      MapValuesPermutation(value, s1[1..], s2[..j] + s2[j + 1..]);
      MapValuesPermutationStep(value, s1, s2, j);
    } else {
      assert |s2| == |multiset(s2)| == 0;
    }
  }

  // ---------------------------------------------------------------------
  // The fold and its reference sum

  /** `values.reduce((sum, x) => sum + x, acc)`: strictly left to right. */
  function FoldSum(acc: JsNum, values: seq<JsNum>): JsNum
    decreases |values|
  {
    if values == [] then acc else FoldSum(Add(acc, values[0]), values[1..])
  }

  /** The sum of `values`, defined by its first element; NaN when any element is NaN. */
  function Sum(values: seq<JsNum>): JsNum
    decreases |values|
  {
    if values == [] then Some(0.0) else Add(values[0], Sum(values[1..]))
  }

  /** The left fold computes the sum: `reduce(+, acc) == acc + Sum`. */
  lemma {:induction false} FoldSumIsSum(acc: JsNum, values: seq<JsNum>)
    ensures FoldSum(acc, values) == Add(acc, Sum(values))
    decreases |values|
  {
    if values != [] {
      FoldSumIsSum(Add(acc, values[0]), values[1..]);
    }
  }

  /** A sum is a number exactly when every summand is. */
  lemma {:induction false} SumDefinedIff(values: seq<JsNum>)
    ensures Sum(values).Some? <==> forall i :: 0 <= i < |values| ==> values[i].Some?
    decreases |values|
  {
    if values != [] {
      SumDefinedIff(values[1..]);
      assert forall i :: 1 <= i < |values| ==> values[i] == values[1..][i - 1];
    }
  }

  /** Summing the concatenation adds the two sums. */
  lemma {:induction false} SumAppend(a: seq<JsNum>, b: seq<JsNum>)
    ensures Sum(a + b) == Add(Sum(a), Sum(b))
    decreases |a|
  {
    if a != [] {
      assert (a + b)[1..] == a[1..] + b;
      SumAppend(a[1..], b);
    } else {
      assert a + b == b;
    }
  }

  /** A summand can move to the front. */
  lemma AddSwap(a: JsNum, b: JsNum, c: JsNum)
    ensures Add(a, Add(b, c)) == Add(b, Add(a, c))
  {
  }

  /** Taking element `j` out of a sequence takes its value out of the sum. */
  lemma SumRemove(values: seq<JsNum>, j: nat)
    requires j < |values|
    ensures Sum(values) == Add(values[j], Sum(values[..j] + values[j + 1..]))
  {
    var left, v, right := values[..j], values[j], values[j + 1..];
    SplitAt(values, j);
    SumAppend(left, [v] + right);
    SumAppend(left, right);
    assert ([v] + right)[1..] == right;
    assert Sum([v] + right) == Add(v, Sum(right));
    AddSwap(Sum(left), v, Sum(right));
  }

  /** The order of the line items does not matter: sequences with the same multiset sum alike. */
  lemma {:induction false} SumPermutation(a: seq<JsNum>, b: seq<JsNum>)
    requires multiset(a) == multiset(b)
    ensures Sum(a) == Sum(b)
    decreases |a|
  {
    if a != [] {
      var j := FindHead(a, b);
      SumPermutation(a[1..], b[..j] + b[j + 1..]);
      SumRemove(b, j);
    } else {
      assert |b| == |multiset(b)| == 0;
    }
  }

  // ---------------------------------------------------------------------
  // Invoice totals

  /** The three figures the form and the dashboard display. */
  datatype Totals = Totals(totalServicios: JsNum, totalRepuestos: JsNum, totalGeneral: JsNum)

  /** `servicios.reduce(...)` of the form: the services fold started at 0. */
  function TotalServicios(servicios: seq<ServiceLine>): JsNum
  {
    FoldSum(Some(0.0), ServiceValues(servicios))
  }

  /** `repuestos.reduce(...)` of the form: the parts fold started at 0. */
  function TotalRepuestos(repuestos: seq<PartLine>): JsNum
  {
    FoldSum(Some(0.0), PartValues(repuestos))
  }

  /**
   * The totals of an invoice's lines: both folds and their sum. `totalGeneral`
   * is NaN exactly when one of the category totals is.
   */
  function CalcularTotales(servicios: seq<ServiceLine>, repuestos: seq<PartLine>): (t: Totals)
    ensures t.totalGeneral == Add(t.totalServicios, t.totalRepuestos)
    ensures t.totalServicios == Sum(ServiceValues(servicios))
    ensures t.totalRepuestos == Sum(PartValues(repuestos))
  {
    FoldSumIsSum(Some(0.0), ServiceValues(servicios));
    FoldSumIsSum(Some(0.0), PartValues(repuestos));
    var ts := TotalServicios(servicios);
    var tr := TotalRepuestos(repuestos);
    Totals(ts, tr, Add(ts, tr))
  }

  /** The totals of a stored invoice; a missing line collection counts as empty. */
  function TotalesDeFactura(f: Factura): Totals
  {
    CalcularTotales(f.servicios.GetOr([]), f.repuestos.GetOr([]))
  }

  /** An invoice without lines totals zero in every figure. */
  lemma EmptyTotals()
    ensures CalcularTotales([], []) == Totals(Some(0.0), Some(0.0), Some(0.0))
  {
  }

  /** The general total is a number exactly when every line's price and quantity parse. */
  lemma TotalGeneralDefinedIff(servicios: seq<ServiceLine>, repuestos: seq<PartLine>)
    ensures CalcularTotales(servicios, repuestos).totalGeneral.Some? <==>
              (forall i :: 0 <= i < |servicios| ==> ServiceValue(servicios[i]).Some?) &&
              (forall i :: 0 <= i < |repuestos| ==> PartValue(repuestos[i]).Some?)
  {
    var sv, pv := ServiceValues(servicios), PartValues(repuestos);
    SumDefinedIff(sv);
    SumDefinedIff(pv);
    forall i | 0 <= i < |servicios| ensures sv[i] == ServiceValue(servicios[i]) {
      MapValuesAt(ServiceValue, servicios, i);
    }
    forall i | 0 <= i < |repuestos| ensures pv[i] == PartValue(repuestos[i]) {
      MapValuesAt(PartValue, repuestos, i);
    }
  }

  /** Reordering the services of an invoice does not change any of its totals. */
  lemma TotalsIgnoreServiceOrder(s1: seq<ServiceLine>, s2: seq<ServiceLine>, repuestos: seq<PartLine>)
    requires multiset(s1) == multiset(s2)
    ensures CalcularTotales(s1, repuestos) == CalcularTotales(s2, repuestos)
  {
    MapValuesPermutation(ServiceValue, s1, s2);
    SumPermutation(ServiceValues(s1), ServiceValues(s2));
  }

  /** Reordering the parts of an invoice does not change any of its totals. */
  lemma TotalsIgnorePartOrder(servicios: seq<ServiceLine>, p1: seq<PartLine>, p2: seq<PartLine>)
    requires multiset(p1) == multiset(p2)
    ensures CalcularTotales(servicios, p1) == CalcularTotales(servicios, p2)
  {
    MapValuesPermutation(PartValue, p1, p2);
    SumPermutation(PartValues(p1), PartValues(p2));
  }

  /** Folding one more value adds it to the running sum. */
  lemma {:induction false} FoldSumAppend(acc: JsNum, values: seq<JsNum>, v: JsNum)
    ensures FoldSum(acc, values + [v]) == Add(FoldSum(acc, values), v)
    decreases |values|
  {
    if values != [] {
      assert (values + [v])[1..] == values[1..] + [v];
      FoldSumAppend(Add(acc, values[0]), values[1..], v);
    } else {
      assert values + [v] == [v];
    }
  }

  /** Appending a service adds its value to the services total. */
  lemma TotalServiciosAppend(servicios: seq<ServiceLine>, s: ServiceLine)
    ensures TotalServicios(servicios + [s]) == Add(TotalServicios(servicios), ServiceValue(s))
  {
    MapValuesConcat(ServiceValue, servicios, [s]);
    assert MapValues(ServiceValue, [s]) == [ServiceValue(s)];
    FoldSumAppend(Some(0.0), ServiceValues(servicios), ServiceValue(s));
  }

  /** Appending a part adds its value to the parts total. */
  lemma TotalRepuestosAppend(repuestos: seq<PartLine>, p: PartLine)
    ensures TotalRepuestos(repuestos + [p]) == Add(TotalRepuestos(repuestos), PartValue(p))
  {
    MapValuesConcat(PartValue, repuestos, [p]);
    assert MapValues(PartValue, [p]) == [PartValue(p)];
    FoldSumAppend(Some(0.0), PartValues(repuestos), PartValue(p));
  }
}
