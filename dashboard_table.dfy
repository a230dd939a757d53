/** The seller's listing table (`components/dashboard/InmuebleTable.tsx`): a text search
    over title, city and type, and a status filter. */
module DashboardTable {
  import opened Wrappers
  import opened Strings
  import opened SeqEdits

  /** The fields of a row the filters and counters read. */
  datatype Row = Row(id: int, titulo: string, tipo: string, ciudad: Option<string>,
                     estado: string, destacado: bool)

  /** matchesSearch: the lowercased search occurs in the lowercased title, city (a
      missing city reads as "") or type. */
  predicate MatchesSearch(row: Row, search: string) {
    var needle := Lower(search);
    Contains(Lower(row.titulo), needle)
    || Contains(Lower(row.ciudad.GetOr("")), needle)
    || Contains(Lower(row.tipo), needle)
  }

  /** matchesEstado: an empty status filter lets every row through. */
  predicate MatchesEstado(row: Row, filterEstado: string) {
    filterEstado == "" || row.estado == filterEstado
  }

  /** filteredInmuebles. */
  function Shown(rows: seq<Row>, search: string, filterEstado: string): (r: seq<Row>)
    ensures |r| <= |rows|
    ensures forall i :: 0 <= i < |r| ==>
      r[i] in rows && MatchesSearch(r[i], search) && MatchesEstado(r[i], filterEstado)
    ensures forall i :: 0 <= i < |rows| ==>
      (MatchesSearch(rows[i], search) && MatchesEstado(rows[i], filterEstado) ==> rows[i] in r)
  {
    Filter(rows, (row: Row) => MatchesSearch(row, search) && MatchesEstado(row, filterEstado))
  }

  /** The shown rows keep the table's order. */
  lemma ShownKeepsOrder(rows: seq<Row>, search: string, filterEstado: string)
    ensures IsSubsequence(Shown(rows, search, filterEstado), rows)
  {
    FilterIsSubsequence(rows, (row: Row) => MatchesSearch(row, search) && MatchesEstado(row, filterEstado));
  }

  /** With no search text and no status every row is shown. */
  lemma NoFiltersShowAll(rows: seq<Row>)
    ensures Shown(rows, "", "") == rows
  {
    forall i | 0 <= i < |rows| ensures MatchesSearch(rows[i], "") {
      ContainsEmpty(Lower(rows[i].titulo));
    }
    FilterKeepsAll(rows, (row: Row) => MatchesSearch(row, "") && MatchesEstado(row, ""));
  }

  /** With a status chosen, every shown row has it. */
  lemma StatusFilterHonoured(rows: seq<Row>, search: string, filterEstado: string, i: nat)
    requires filterEstado != "" && i < |Shown(rows, search, filterEstado)|
    ensures Shown(rows, search, filterEstado)[i].estado == filterEstado
  {
  }

  /** The letter case of the search text does not change what is shown. */
  lemma SearchIgnoresCase(rows: seq<Row>, search: string, filterEstado: string)
    ensures Shown(rows, Lower(search), filterEstado) == Shown(rows, search, filterEstado)
  {
    LowerIdempotent(search);
    FilterSamePredicate(rows,
      (row: Row) => MatchesSearch(row, Lower(search)) && MatchesEstado(row, filterEstado),
      (row: Row) => MatchesSearch(row, search) && MatchesEstado(row, filterEstado));
  }
}
