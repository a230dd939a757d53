/** The counters above the seller's table (`app/dashboard/inmuebles/page.tsx`). */
module DashboardStats {
  import opened SeqEdits
  import opened DashboardTable

  datatype Stats = Stats(total: nat, disponibles: nat, vendidos: nat, destacados: nat)

  function CountEstado(rows: seq<Row>, estado: string): (r: nat)
    ensures r <= |rows|
  {
    |Filter(rows, (row: Row) => row.estado == estado)|
  }

  /** estadisticas: every counter is a filter of the seller's listings. */
  function Estadisticas(rows: seq<Row>): (r: Stats)
    ensures r.total == |rows|
    ensures r.disponibles <= r.total && r.vendidos <= r.total && r.destacados <= r.total
  {
    Stats(|rows|, CountEstado(rows, "DISPONIBLE"), CountEstado(rows, "VENDIDO"),
          |Filter(rows, (row: Row) => row.destacado)|)
  }

  /** No listing is counted both as available and as sold. */
  lemma {:induction false} TwoStatusesFit(rows: seq<Row>, a: string, b: string)
    requires a != b
    ensures CountEstado(rows, a) + CountEstado(rows, b) <= |rows|
  {
    if rows != [] {
      TwoStatusesFit(rows[1..], a, b);
    }
  }

  lemma AvailablePlusSoldAtMostTotal(rows: seq<Row>)
    ensures var s := Estadisticas(rows); s.disponibles + s.vendidos <= s.total
  {
    TwoStatusesFit(rows, "DISPONIBLE", "VENDIDO");
  }
}
