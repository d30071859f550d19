/** `VentasScreen`: the admin's sales report, its period filters and the
    statistics over the filtered sales. */
module Ventas {
  import opened Wrappers
  import opened Seqs
  import opened Domain

  /** Seven days in milliseconds. */
  const SemanaMs: int := 7 * 24 * 60 * 60 * 1000

  function EsDeHoy(ahora: Fecha): Venta -> bool
  {
    (v: Venta) => v.fecha.day == ahora.day && v.fecha.month == ahora.month && v.fecha.year == ahora.year
  }

  function EsDeLaSemana(ahora: Fecha): Venta -> bool
  {
    (v: Venta) => v.fecha.ts >= ahora.ts - SemanaMs
  }

  function EsDelMes(ahora: Fecha): Venta -> bool
  {
    (v: Venta) => v.fecha.month == ahora.month && v.fecha.year == ahora.year
  }

  /** `aplicarFiltro`: `'todas'` and any unknown filter keep every sale. */
  function AplicarFiltro(filtro: string, ventas: seq<Venta>, ahora: Fecha): seq<Venta>
  {
    match filtro
    case "hoy" => Filter(ventas, EsDeHoy(ahora))
    case "semana" => Filter(ventas, EsDeLaSemana(ahora))
    case "mes" => Filter(ventas, EsDelMes(ahora))
    case _ => ventas
  }

  /** Every filter keeps a subsequence of the sales, in their order; the
      period filters keep exactly the sales of their period and the others
      keep everything. */
  lemma {:induction false} AplicarFiltroSpec(filtro: string, ventas: seq<Venta>, ahora: Fecha)
    ensures IsSubsequence(AplicarFiltro(filtro, ventas, ahora), ventas)
    ensures filtro == "hoy" ==> forall v :: v in AplicarFiltro(filtro, ventas, ahora) <==>
      v in ventas && v.fecha.day == ahora.day && v.fecha.month == ahora.month && v.fecha.year == ahora.year
    ensures filtro == "semana" ==> forall v :: v in AplicarFiltro(filtro, ventas, ahora) <==>
      v in ventas && v.fecha.ts >= ahora.ts - SemanaMs
    ensures filtro == "mes" ==> forall v :: v in AplicarFiltro(filtro, ventas, ahora) <==>
      v in ventas && v.fecha.month == ahora.month && v.fecha.year == ahora.year
    ensures filtro !in {"hoy", "semana", "mes"} ==> AplicarFiltro(filtro, ventas, ahora) == ventas
  {
    match filtro
    case "hoy" => FilterIsSubsequence(ventas, EsDeHoy(ahora));
    case "semana" => FilterIsSubsequence(ventas, EsDeLaSemana(ahora));
    case "mes" => FilterIsSubsequence(ventas, EsDelMes(ahora));
    case _ => SubsequenceRefl(ventas);
  }

  lemma {:induction false} SubsequenceRefl<T>(s: seq<T>)
    ensures IsSubsequence(s, s)
    decreases |s|
  {
    if s != [] {
      SubsequenceRefl(s[1..]);
    }
  }

  /** Today's sales are this month's: filtering by month first changes
      nothing, and every sale of today is kept by the month filter. */
  lemma {:induction false} HoyDentroDelMes(ventas: seq<Venta>, ahora: Fecha)
    ensures AplicarFiltro("hoy", AplicarFiltro("mes", ventas, ahora), ahora) == AplicarFiltro("hoy", ventas, ahora)
    ensures forall v :: v in AplicarFiltro("hoy", ventas, ahora) ==> v in AplicarFiltro("mes", ventas, ahora)
  {
    FilterImplied(ventas, EsDeHoy(ahora), EsDelMes(ahora));
  }

  // ---- statistics ----

  datatype Estadisticas = Estadisticas(totalVentas: int, cantidadVentas: nat, promedioVenta: real)

  function SumaTotales(ventas: seq<Venta>): int
  {
    if ventas == [] then 0 else SumaTotales(ventas[..|ventas| - 1]) + ventas[|ventas| - 1].total
  }

  /** `calcularEstadisticas`: the average is 0 for no sales. */
  function CalcularEstadisticas(ventas: seq<Venta>): (e: Estadisticas)
    ensures e.cantidadVentas == |ventas|
    ensures e.totalVentas == SumaTotales(ventas)
    ensures |ventas| == 0 ==> e.totalVentas == 0 && e.promedioVenta == 0.0
    ensures |ventas| > 0 ==> e.promedioVenta * (|ventas| as real) == e.totalVentas as real
  {
    var total := SumaTotales(ventas);
    var cantidad := |ventas|;
    Estadisticas(total, cantidad, if cantidad > 0 then total as real / cantidad as real else 0.0)
  }

  lemma {:induction false} SumaTotalesBounds(ventas: seq<Venta>, lo: int, hi: int)
    requires forall i :: 0 <= i < |ventas| ==> lo <= ventas[i].total <= hi
    ensures lo * |ventas| <= SumaTotales(ventas) <= hi * |ventas|
    decreases |ventas|
  {
    if ventas != [] {
      SumaTotalesBounds(ventas[..|ventas| - 1], lo, hi);
    }
  }

  /** The average lies between the smallest and the largest sale. */
  lemma {:induction false} PromedioAcotado(ventas: seq<Venta>, lo: int, hi: int)
    requires |ventas| > 0
    requires forall i :: 0 <= i < |ventas| ==> lo <= ventas[i].total <= hi
    ensures lo as real <= CalcularEstadisticas(ventas).promedioVenta <= hi as real
  {
    SumaTotalesBounds(ventas, lo, hi);
    var n := |ventas| as real;
    var e := CalcularEstadisticas(ventas);
    assert e.promedioVenta * n == e.totalVentas as real;
    assert (lo as real) * n <= e.totalVentas as real <= (hi as real) * n;
  }

  class VentasScreen {
    var ventas: seq<Venta>
    var ventasFiltradas: seq<Venta>
    var loading: bool
    var modalVisible: bool
    var ventaSeleccionada: Option<Venta>
    var filtroFecha: string
    var estadisticas: Estadisticas

    constructor ()
      ensures ventas == [] && ventasFiltradas == [] && loading
      ensures !modalVisible && ventaSeleccionada == None
      ensures filtroFecha == "hoy" && estadisticas == Estadisticas(0, 0, 0.0)
    {
      ventas, ventasFiltradas, loading := [], [], true;
      modalVisible, ventaSeleccionada := false, None;
      filtroFecha, estadisticas := "hoy", Estadisticas(0, 0, 0.0);
    }

    /** `aplicarFiltro` over the given sales; its statistics follow the
        filtered list. */
    method AplicarFiltroA(filtro: string, datos: seq<Venta>, ahora: Fecha)
      modifies this
      ensures filtroFecha == filtro
      ensures ventasFiltradas == AplicarFiltro(filtro, datos, ahora)
      ensures estadisticas == CalcularEstadisticas(ventasFiltradas)
      ensures ventas == old(ventas) && loading == old(loading)
      ensures modalVisible == old(modalVisible) && ventaSeleccionada == old(ventaSeleccionada)
    {
      filtroFecha := filtro;
      ventasFiltradas := AplicarFiltro(filtro, datos, ahora);
      estadisticas := CalcularEstadisticas(ventasFiltradas);
    }

    /** A filter button: the stored sales, filtered again. */
    method ElegirFiltro(filtro: string, ahora: Fecha)
      modifies this
      ensures filtroFecha == filtro
      ensures ventasFiltradas == AplicarFiltro(filtro, ventas, ahora)
      ensures estadisticas == CalcularEstadisticas(ventasFiltradas)
      ensures ventas == old(ventas) && loading == old(loading)
      ensures modalVisible == old(modalVisible) && ventaSeleccionada == old(ventaSeleccionada)
    {
      AplicarFiltroA(filtro, ventas, ahora);
    }

    /** `cargarVentas`: a fresh load always shows today's sales, whatever
        filter was selected before. */
    method CargarVentas(res: Result<seq<Venta>, string>, ahora: Fecha)
      modifies this
      ensures !loading
      ensures res.Success? ==>
        && ventas == res.value && filtroFecha == "hoy"
        && ventasFiltradas == AplicarFiltro("hoy", res.value, ahora)
        && estadisticas == CalcularEstadisticas(ventasFiltradas)
      ensures res.Failure? ==>
        && ventas == old(ventas) && filtroFecha == old(filtroFecha)
        && ventasFiltradas == old(ventasFiltradas) && estadisticas == old(estadisticas)
      ensures modalVisible == old(modalVisible) && ventaSeleccionada == old(ventaSeleccionada)
    {
      loading := true;
      if res.Success? {
        ventas := res.value;
        AplicarFiltroA("hoy", res.value, ahora);
      }
      loading := false;
    }

    method VerDetalleVenta(v: Venta)
      modifies this
      ensures modalVisible && ventaSeleccionada == Some(v)
      ensures ventas == old(ventas) && ventasFiltradas == old(ventasFiltradas) && loading == old(loading)
      ensures filtroFecha == old(filtroFecha) && estadisticas == old(estadisticas)
    {
      ventaSeleccionada := Some(v);
      modalVisible := true;
    }

    method CerrarModal()
      modifies this
      ensures !modalVisible && ventaSeleccionada == None
      ensures ventas == old(ventas) && ventasFiltradas == old(ventasFiltradas) && loading == old(loading)
      ensures filtroFecha == old(filtroFecha) && estadisticas == old(estadisticas)
    {
      modalVisible := false;
      ventaSeleccionada := None;
    }
  }
}
