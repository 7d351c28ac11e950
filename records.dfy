/**
 One row of the `producao` result set as the dashboard receives it: the ten
 columns the loader selects, each nullable, and the table cells that show it.
 */
module Records {

  import opened Wrappers

  /** An instant as the loader's datetime conversion yields it, in whole seconds. */
  type Timestamp = int

  /** A production record. `tempoMinutos` is the derived duration column; its value is opaque here. */
  datatype Record = Record(
    id: Option<int>,
    ean: Option<string>,
    sku: Option<string>,
    descricao: Option<string>,
    chassi: Option<string>,
    montador: Option<string>,
    dataInicio: Option<Timestamp>,
    dataFim: Option<Timestamp>,
    status: Option<string>,
    tempoMinutos: Option<real>)

  /** What the loader's query guarantees of a row: the duration is `(data_fim - data_inicio)` in
      minutes, and it is null exactly when either timestamp is null. */
  predicate DurationDerived(r: Record)
  {
    && (r.tempoMinutos.Some? <==> r.dataInicio.Some? && r.dataFim.Some?)
    && (r.tempoMinutos.Some? ==> r.tempoMinutos.value == (r.dataFim.value - r.dataInicio.value) as real / 60.0)
  }

  /** What the loader hands the callback: the rows, or a failure that it turns into an empty table. */
  datatype Load = Loaded(rows: seq<Record>) | LoadFailed(reason: string)

  function LoadedRows(l: Load): (rows: seq<Record>)
    ensures l.LoadFailed? ==> rows == []
  {
    match l
    case Loaded(rows) => rows
    case LoadFailed(_) => []
  }

  /** `a` may precede `b` under `ORDER BY data_inicio DESC` (PostgreSQL puts NULLs first when descending). */
  predicate StartsNoEarlier(a: Record, b: Record)
    ensures a.dataInicio == b.dataInicio ==> StartsNoEarlier(a, b)
  {
    a.dataInicio.None? || (b.dataInicio.Some? && a.dataInicio.value >= b.dataInicio.value)
  }

  /** Any two records can be placed one before the other. */
  lemma StartOrderTotal(a: Record, b: Record)
    ensures StartsNoEarlier(a, b) || StartsNoEarlier(b, a)
  {
  }

  /** The order the loader's query promises: most recent start first. */
  ghost predicate NewestFirst(rows: seq<Record>)
    ensures NewestFirst(rows) ==>
      forall i, j :: 0 <= i < j < |rows| && rows[j].dataInicio.None? ==> rows[i].dataInicio.None?
  {
    forall i, j :: 0 <= i < j < |rows| ==> StartsNoEarlier(rows[i], rows[j])
  }

  /** The columns of the loaded frame, in the order the query selects them. */
  datatype Column = Id | Ean | Sku | Descricao | Chassi | Montador | DataInicio | DataFim | Status | TempoMinutos

  const Columns: seq<Column> := [Id, Ean, Sku, Descricao, Chassi, Montador, DataInicio, DataFim, Status, TempoMinutos]

  function ColumnName(c: Column): string
  {
    match c
    case Id => "id"
    case Ean => "ean"
    case Sku => "sku"
    case Descricao => "descricao"
    case Chassi => "chassi"
    case Montador => "montador"
    case DataInicio => "data_inicio"
    case DataFim => "data_fim"
    case Status => "status"
    case TempoMinutos => "tempo_minutos"
  }

  /** The value shown in one table cell; a null column shows as `Null`. */
  datatype Cell = Null | IntCell(i: int) | TextCell(s: string) | TimeCell(t: Timestamp) | MinutesCell(m: real)

  function IntField(o: Option<int>): Cell { if o.Some? then IntCell(o.value) else Null }
  function TextField(o: Option<string>): Cell { if o.Some? then TextCell(o.value) else Null }
  function TimeField(o: Option<Timestamp>): Cell { if o.Some? then TimeCell(o.value) else Null }
  function MinutesField(o: Option<real>): Cell { if o.Some? then MinutesCell(o.value) else Null }

  /** The cell shows a value of the column's type, or is null. */
  predicate FitsColumn(c: Column, cell: Cell)
  {
    match c
    case Id => cell.Null? || cell.IntCell?
    case DataInicio | DataFim => cell.Null? || cell.TimeCell?
    case TempoMinutos => cell.Null? || cell.MinutesCell?
    case _ => cell.Null? || cell.TextCell?
  }

  /** `df.iloc[i][col]`: the value of one column of one record. */
  function Field(r: Record, c: Column): (cell: Cell)
    ensures FitsColumn(c, cell)
  {
    match c
    case Id => IntField(r.id)
    case Ean => TextField(r.ean)
    case Sku => TextField(r.sku)
    case Descricao => TextField(r.descricao)
    case Chassi => TextField(r.chassi)
    case Montador => TextField(r.montador)
    case DataInicio => TimeField(r.dataInicio)
    case DataFim => TimeField(r.dataFim)
    case Status => TextField(r.status)
    case TempoMinutos => MinutesField(r.tempoMinutos)
  }

  /** The header row: one name per column. */
  function Header(): (h: seq<string>)
    ensures |h| == |Columns|
    ensures forall c :: ColumnName(c) in h
    ensures forall i, j :: 0 <= i < j < |h| ==> h[i] != h[j]
  {
    var h := seq(|Columns|, j requires 0 <= j < |Columns| => ColumnName(Columns[j]));
    assert h == ["id", "ean", "sku", "descricao", "chassi", "montador", "data_inicio", "data_fim", "status", "tempo_minutos"];
    h
  }

  /** One body row: one cell per column, in header order. */
  function RenderRow(r: Record): (cells: seq<Cell>)
    ensures |cells| == |Header()|
  {
    seq(|Columns|, j requires 0 <= j < |Columns| => Field(r, Columns[j]))
  }

  /** The cell under the header entry naming column `c` is that column's value. */
  lemma HeaderLabelsCells(r: Record, c: Column, j: int)
    requires 0 <= j < |Header()| && Header()[j] == ColumnName(c)
    ensures RenderRow(r)[j] == Field(r, c)
  {
  }

  // Reading a cell back; `None` when the cell does not hold the column's type.
  function AsInt(c: Cell): Option<Option<int>>
  {
    match c
    case Null => Some(None)
    case IntCell(i) => Some(Some(i))
    case _ => None
  }

  function AsText(c: Cell): Option<Option<string>>
  {
    match c
    case Null => Some(None)
    case TextCell(s) => Some(Some(s))
    case _ => None
  }

  function AsTime(c: Cell): Option<Option<Timestamp>>
  {
    match c
    case Null => Some(None)
    case TimeCell(t) => Some(Some(t))
    case _ => None
  }

  function AsMinutes(c: Cell): Option<Option<real>>
  {
    match c
    case Null => Some(None)
    case MinutesCell(m) => Some(Some(m))
    case _ => None
  }

  /** The record a body row shows, when it has one cell of the right type per column. */
  function ParseRow(cells: seq<Cell>): Option<Record>
  {
    if |cells| != |Columns| then None
    else
      var id, ean, sku, descricao, chassi := AsInt(cells[0]), AsText(cells[1]), AsText(cells[2]), AsText(cells[3]), AsText(cells[4]);
      var montador, dataInicio, dataFim, status, tempo := AsText(cells[5]), AsTime(cells[6]), AsTime(cells[7]), AsText(cells[8]), AsMinutes(cells[9]);
      if id.None? || ean.None? || sku.None? || descricao.None? || chassi.None? || montador.None?
         || dataInicio.None? || dataFim.None? || status.None? || tempo.None?
      then None
      else Some(Record(id.value, ean.value, sku.value, descricao.value, chassi.value,
                       montador.value, dataInicio.value, dataFim.value, status.value, tempo.value))
  }

  /** A body row loses nothing: every column of the record can be read back from its cell. */
  lemma RowRoundTrip(r: Record)
    ensures ParseRow(RenderRow(r)) == Some(r)
  {
  }

}
