/**
 The refresh callback of the production dashboard: from the loaded records and
 the worker chosen in the dropdown to the three figures, the table and the
 dropdown's options.
 */
module Dashboard {

  import opened Wrappers
  import opened Ordering
  import opened Sequences
  import opened Records
  import opened Aggregation

  const NoDataTitle := "Sem dados disponíveis"
  const NoRecordsText := "Sem registros disponíveis."
  const SkuTitle := "Produção por SKU"
  const MontadorTitle := "Produção por Montador"
  const TempoTitle := "Tempo de Montagem (minutos)"

  /** The data handed to the plotting library for one figure. */
  datatype Figure =
    | EmptyFigure(title: string)
    | BarFigure(title: string, x: GroupKey, bars: seq<Bar>)
    | BoxFigure(title: string, points: seq<Record>)

  /** The table area: a placeholder paragraph, or a table of header and body rows. */
  datatype TableView = Placeholder(text: string) | HtmlTable(header: seq<string>, body: seq<seq<Cell>>)

  /** One dropdown entry, `{"label": m, "value": m}`. */
  datatype DropdownOption = DropdownOption(labelText: string, value: string)

  /** The five outputs of the callback. */
  datatype View = View(figSku: Figure, figMontador: Figure, figTempo: Figure, tabela: TableView, opcoes: seq<DropdownOption>)

  /** `df[df["montador"] == w]`: a null worker never equals `w`. */
  function KeepWorker(rows: seq<Record>, w: string): (kept: seq<Record>)
    ensures forall x :: x in kept <==> x in rows && x.montador == Some(w)
    ensures forall x :: multiset(kept)[x] == if x.montador == Some(w) then multiset(rows)[x] else 0
    ensures IsSubsequence(kept, rows)
  {
    Filter(rows, (r: Record) => r.montador == Some(w))
  }

  /** The frame after the optional worker filter. The dropdown value filters only when it is
      truthy: an absent value and the empty string both leave the frame as it is. */
  function ApplyFilter(rows: seq<Record>, f: Option<string>): (kept: seq<Record>)
    ensures f == None || f == Some("") ==> kept == rows
    ensures f.Some? && f.value != "" ==> forall x :: x in kept <==> x in rows && x.montador == f
    ensures f.Some? && f.value != "" ==>
      forall x :: multiset(kept)[x] == if x.montador == f then multiset(rows)[x] else 0
    ensures IsSubsequence(kept, rows)
  {
    SubsequenceReflexive(rows);
    if f.Some? && f.value != "" then KeepWorker(rows, f.value) else rows
  }

  /** `df.dropna(subset=["tempo_minutos"])`: the rows the box plot receives. */
  function DurationRows(rows: seq<Record>): (timed: seq<Record>)
    ensures forall x :: x in timed <==> x in rows && x.tempoMinutos.Some?
    ensures forall x :: multiset(timed)[x] == if x.tempoMinutos.Some? then multiset(rows)[x] else 0
    ensures IsSubsequence(timed, rows)
  {
    Filter(rows, (r: Record) => r.tempoMinutos.Some?)
  }

  function OptionValues(opts: seq<DropdownOption>): seq<string>
  {
    seq(|opts|, i requires 0 <= i < |opts| => opts[i].value)
  }

  /** The dropdown entries: the distinct non-null workers of `rows`, ascending, each labelled by itself. */
  function WorkerOptions(rows: seq<Record>): (opts: seq<DropdownOption>)
    ensures forall i :: 0 <= i < |opts| ==> opts[i].labelText == opts[i].value
    ensures Ascending(OptionValues(opts))
    ensures forall w :: w in OptionValues(opts) <==> HasKey(rows, ByMontador, w)
  {
    var ms := SortUnique(Values(rows, ByMontador));
    var opts := seq(|ms|, i requires 0 <= i < |ms| => DropdownOption(ms[i], ms[i]));
    assert OptionValues(opts) == ms;
    opts
  }

  /** The production table: the header, then one row per record in frame order. */
  function RenderTable(rows: seq<Record>): (t: TableView)
    ensures t.HtmlTable? && t.header == Header() && |t.body| == |rows|
    ensures forall i :: 0 <= i < |t.body| ==> |t.body[i]| == |t.header|
  {
    HtmlTable(Header(), seq(|rows|, i requires 0 <= i < |rows| => RenderRow(rows[i])))
  }

  /** The records a table body shows, when every row reads back as a record. */
  function ParseBody(body: seq<seq<Cell>>): Option<seq<Record>>
  {
    if body == [] then Some([])
    else
      match (ParseRow(body[0]), ParseBody(body[1..]))
      case (Some(r), Some(rest)) => Some([r] + rest)
      case _ => None
  }

  /** The table shows exactly the filtered records, in their order, none lost or added. */
  lemma {:induction false} TableRoundTrip(rows: seq<Record>)
    ensures ParseBody(RenderTable(rows).body) == Some(rows)
  {
    if rows != [] {
      var body := RenderTable(rows).body;
      assert body[1..] == RenderTable(rows[1..]).body;
      RowRoundTrip(rows[0]);
      TableRoundTrip(rows[1..]);
      assert rows == [rows[0]] + rows[1..];
    }
  }

  /** `atualizar_dashboard(n_clicks, filtro_montador)` once the loader has returned `loaded`. */
  function Refresh(loaded: seq<Record>, f: Option<string>): (v: View)
    ensures v.tabela.Placeholder? <==> loaded == []
  {
    if loaded == [] then
      View(EmptyFigure(NoDataTitle), EmptyFigure(NoDataTitle), EmptyFigure(NoDataTitle),
           Placeholder(NoRecordsText), [])
    else
      var rows := ApplyFilter(loaded, f);
      View(BarFigure(SkuTitle, BySku, GroupCount(rows, BySku)),
           BarFigure(MontadorTitle, ByMontador, GroupCount(rows, ByMontador)),
           BoxFigure(TempoTitle, DurationRows(rows)),
           RenderTable(rows),
           WorkerOptions(rows))
  }

  /** A failed or empty load shows the three "no data" figures, the placeholder and no options. */
  lemma EmptyLoadShowsPlaceholders(l: Load, f: Option<string>)
    requires l.LoadFailed? || l.rows == []
    ensures Refresh(LoadedRows(l), f) ==
      View(EmptyFigure(NoDataTitle), EmptyFigure(NoDataTitle), EmptyFigure(NoDataTitle), Placeholder(NoRecordsText), [])
  {
  }

  /** Keeping one worker's rows keeps that worker's whole count. */
  lemma {:induction false} KeepWorkerCount(rows: seq<Record>, w: string)
    ensures CountWhere(KeepWorker(rows, w), ByMontador, w) == CountWhere(rows, ByMontador, w)
  {
    if rows != [] {
      KeepWorkerCount(rows[1..], w);
      var rest := KeepWorker(rows[1..], w);
      if rows[0].montador == Some(w) {
        assert KeepWorker(rows, w) == [rows[0]] + rest;
        assert ([rows[0]] + rest)[1..] == rest;
      } else {
        assert KeepWorker(rows, w) == rest;
      }
    }
  }

  lemma KeepWorkerKeys(rows: seq<Record>, w: string, k: string)
    ensures HasKey(KeepWorker(rows, w), ByMontador, k) <==> k == w && HasKey(rows, ByMontador, w)
  {
  }

  /** With a worker chosen, the worker chart has at most that worker's bar, sized by the unfiltered count,
      and the dropdown offers at most that worker. */
  lemma FilteredWorkerView(loaded: seq<Record>, w: string)
    requires loaded != [] && w != ""
    ensures var v := Refresh(loaded, Some(w));
      && v.figMontador == BarFigure(MontadorTitle, ByMontador,
           if HasKey(loaded, ByMontador, w) then [Bar(w, CountWhere(loaded, ByMontador, w))] else [])
      && v.opcoes == if HasKey(loaded, ByMontador, w) then [DropdownOption(w, w)] else []
  {
    var rows := KeepWorker(loaded, w);
    forall k ensures HasKey(rows, ByMontador, k) <==> k == w && HasKey(loaded, ByMontador, w) {
      KeepWorkerKeys(loaded, w, k);
    }
    var bars := GroupCount(rows, ByMontador);
    AscendingSingleValue(Labels(bars), w);
    if HasKey(loaded, ByMontador, w) {
      assert w in Labels(bars);
      assert |bars| == 1 && bars[0].key == w;
      KeepWorkerCount(loaded, w);
      assert bars == [Bar(w, CountWhere(loaded, ByMontador, w))];
    } else {
      HeadIsMember(Labels(bars));
      assert bars == [];
    }
    var opts := WorkerOptions(rows);
    AscendingSingleValue(OptionValues(opts), w);
    if HasKey(loaded, ByMontador, w) {
      assert w in OptionValues(opts);
      assert opts == [DropdownOption(w, w)];
    } else {
      HeadIsMember(OptionValues(opts));
      assert opts == [];
    }
  }

  /** A chosen worker with no rows empties every aggregate, but is not the "no data" placeholder. */
  lemma UnmatchedFilterView(loaded: seq<Record>, w: string)
    requires loaded != [] && w != ""
    requires !HasKey(loaded, ByMontador, w)
    ensures var v := Refresh(loaded, Some(w));
      && v.figSku == BarFigure(SkuTitle, BySku, [])
      && v.figMontador == BarFigure(MontadorTitle, ByMontador, [])
      && v.figTempo == BoxFigure(TempoTitle, [])
      && v.tabela == HtmlTable(Header(), [])
      && v.opcoes == []
  {
  }

  /** On rows as the loader derives them, the box plot receives exactly the finished records. */
  lemma DurationRowsAreFinished(rows: seq<Record>)
    requires forall r :: r in rows ==> DurationDerived(r)
    ensures forall x :: x in DurationRows(rows) <==> x in rows && x.dataInicio.Some? && x.dataFim.Some?
  {
  }

  /** The filter keeps the loader's newest-first order, so the table lists the newest records first. */
  lemma FilterKeepsNewestFirst(loaded: seq<Record>, f: Option<string>)
    requires NewestFirst(loaded)
    ensures NewestFirst(ApplyFilter(loaded, f))
    ensures NewestFirst(DurationRows(ApplyFilter(loaded, f)))
  {
    var before := (a: Record, b: Record) => StartsNoEarlier(a, b);
    var rows := ApplyFilter(loaded, f);
    assert Ordered(loaded, before);
    SubsequenceKeepsOrder(rows, loaded, before);
    SubsequenceKeepsOrder(DurationRows(rows), rows, before);
  }

  /** The dropdown depends only on which records were loaded, not on the order the query returned them in. */
  lemma OptionsIgnoreRowOrder(a: seq<Record>, b: seq<Record>)
    requires forall r :: r in a <==> r in b
    ensures WorkerOptions(a) == WorkerOptions(b)
  {
    var ma, mb := SortUnique(Values(a, ByMontador)), SortUnique(Values(b, ByMontador));
    AscendingUnique(ma, mb);
  }

  /** The contract of WorkerOptions determines its result. */
  lemma WorkerOptionsUnique(rows: seq<Record>, opts: seq<DropdownOption>)
    requires forall i :: 0 <= i < |opts| ==> opts[i].labelText == opts[i].value
    requires Ascending(OptionValues(opts))
    requires forall w :: w in OptionValues(opts) <==> HasKey(rows, ByMontador, w)
    ensures WorkerOptions(rows) == opts
  {
    var mine := WorkerOptions(rows);
    AscendingUnique(OptionValues(mine), OptionValues(opts));
    assert forall i :: 0 <= i < |opts| ==> mine[i].value == OptionValues(mine)[i] == OptionValues(opts)[i] == opts[i].value;
  }

  /** A record started at instant 0, finished `minutes` later when `minutes` is present. */
  function Sample(id: int, sku: string, montador: string, minutes: Option<nat>): Record
  {
    var fim := if minutes.Some? then Some(60 * minutes.value) else None;
    var tempo := if minutes.Some? then Some(minutes.value as real) else None;
    Record(Some(id), None, Some(sku), None, None, Some(montador), Some(0), fim, None, tempo)
  }

  const A1 := Sample(1, "X1", "A", Some(10))
  const A2 := Sample(2, "X2", "A", Some(15))
  const B1 := Sample(3, "X1", "B", None)

  /** The scenario's records are rows the loader's query can return. */
  lemma ScenarioRecordsDerived()
    ensures forall r :: r in Rows3 ==> DurationDerived(r)
  {
  }
  const Rows3 := [A1, A2, B1]

  lemma CountWhereTwo(a: Record, b: Record, g: GroupKey, k: string)
    ensures CountWhere([b], g, k) == if Counted(b, g, k) then 1 else 0
    ensures CountWhere([a, b], g, k) == (if Counted(a, g, k) then 1 else 0) + (if Counted(b, g, k) then 1 else 0)
  {
    assert [b][1..] == [];
    assert [a, b][1..] == [b];
  }

  lemma ScenarioSkuBars()
    ensures GroupCount(Rows3, BySku) == [Bar("X1", 2), Bar("X2", 1)]
  {
    forall k ensures HasKey(Rows3, BySku, k) <==> k == "X1" || k == "X2" {
      assert A1 in Rows3 && A2 in Rows3;
    }
    assert Rows3[1..] == [A2, B1] && Rows3[1..][1..] == [B1] && [B1][1..] == [];
    assert Less("X1", "X2");
    assert Labels([Bar("X1", 2), Bar("X2", 1)]) == ["X1", "X2"];
    CountWhereTwo(A2, B1, BySku, "X1");
    CountWhereTwo(A2, B1, BySku, "X2");
    GroupCountUnique(Rows3, BySku, [Bar("X1", 2), Bar("X2", 1)]);
  }

  lemma ScenarioWorkerBars()
    ensures GroupCount(Rows3, ByMontador) == [Bar("A", 2), Bar("B", 1)]
  {
    forall k ensures HasKey(Rows3, ByMontador, k) <==> k == "A" || k == "B" {
      assert A1 in Rows3 && B1 in Rows3;
    }
    assert Rows3[1..] == [A2, B1] && Rows3[1..][1..] == [B1] && [B1][1..] == [];
    assert Less("A", "B");
    assert Labels([Bar("A", 2), Bar("B", 1)]) == ["A", "B"];
    CountWhereTwo(A2, B1, ByMontador, "A");
    CountWhereTwo(A2, B1, ByMontador, "B");
    GroupCountUnique(Rows3, ByMontador, [Bar("A", 2), Bar("B", 1)]);
  }

  lemma ScenarioOptions()
    ensures WorkerOptions(Rows3) == [DropdownOption("A", "A"), DropdownOption("B", "B")]
    ensures WorkerOptions([B1]) == [DropdownOption("B", "B")]
  {
    forall k ensures HasKey(Rows3, ByMontador, k) <==> k == "A" || k == "B" {
      assert A1 in Rows3 && B1 in Rows3;
    }
    forall k ensures HasKey([B1], ByMontador, k) <==> k == "B" {
      assert B1 in [B1];
    }
    assert Less("A", "B");
    assert OptionValues([DropdownOption("A", "A"), DropdownOption("B", "B")]) == ["A", "B"];
    assert OptionValues([DropdownOption("B", "B")]) == ["B"];
    WorkerOptionsUnique(Rows3, [DropdownOption("A", "A"), DropdownOption("B", "B")]);
    WorkerOptionsUnique([B1], [DropdownOption("B", "B")]);
  }

  lemma ScenarioWorkerSelection()
    ensures KeepWorker(Rows3, "B") == [B1]
  {
    assert Rows3[1..] == [A2, B1] && Rows3[1..][1..] == [B1] && [B1][1..] == [];
    assert KeepWorker([B1], "B") == [B1];
    assert KeepWorker([A2, B1], "B") == [B1];
  }

  lemma ScenarioDurationSelection()
    ensures DurationRows(Rows3) == [A1, A2] && DurationRows([B1]) == []
  {
    assert Rows3[1..] == [A2, B1] && Rows3[1..][1..] == [B1] && [B1][1..] == [];
    assert DurationRows([B1]) == [];
    assert DurationRows([A2, B1]) == [A2];
  }

  lemma ScenarioOnlyBBars()
    ensures GroupCount([B1], BySku) == [Bar("X1", 1)]
    ensures GroupCount([B1], ByMontador) == [Bar("B", 1)]
  {
    forall k ensures HasKey([B1], BySku, k) <==> k == "X1" {
      assert B1 in [B1];
    }
    forall k ensures HasKey([B1], ByMontador, k) <==> k == "B" {
      assert B1 in [B1];
    }
    assert [B1][1..] == [];
    assert Labels([Bar("X1", 1)]) == ["X1"] && Labels([Bar("B", 1)]) == ["B"];
    GroupCountUnique([B1], BySku, [Bar("X1", 1)]);
    GroupCountUnique([B1], ByMontador, [Bar("B", 1)]);
  }

  lemma ScenarioUnfiltered()
    ensures var all := Refresh(Rows3, None);
      && all.figSku.bars == [Bar("X1", 2), Bar("X2", 1)]
      && all.figMontador.bars == [Bar("A", 2), Bar("B", 1)]
      && all.figTempo.points == [A1, A2]
      && all.opcoes == [DropdownOption("A", "A"), DropdownOption("B", "B")]
  {
    assert ApplyFilter(Rows3, None) == Rows3;
    ScenarioSkuBars();
    ScenarioWorkerBars();
    ScenarioOptions();
    ScenarioDurationSelection();
  }

  lemma ScenarioFilteredB()
    ensures var onlyB := Refresh(Rows3, Some("B"));
      && onlyB.figSku.bars == [Bar("X1", 1)]
      && onlyB.figMontador.bars == [Bar("B", 1)]
      && onlyB.figTempo.points == []
      && onlyB.opcoes == [DropdownOption("B", "B")]
  {
    ScenarioWorkerSelection();
    assert ApplyFilter(Rows3, Some("B")) == [B1];
    ScenarioOnlyBBars();
    ScenarioOptions();
    ScenarioDurationSelection();
  }

  /** Three records: worker A built X1 (10 min) and X2 (15 min), worker B is still building an X1. */
  lemma ThreeRecordScenario()
    ensures var all := Refresh(Rows3, None);
      && all.figSku.bars == [Bar("X1", 2), Bar("X2", 1)]
      && all.figMontador.bars == [Bar("A", 2), Bar("B", 1)]
      && all.figTempo.points == [A1, A2]
      && all.opcoes == [DropdownOption("A", "A"), DropdownOption("B", "B")]
    ensures var onlyB := Refresh(Rows3, Some("B"));
      && onlyB.figSku.bars == [Bar("X1", 1)]
      && onlyB.figMontador.bars == [Bar("B", 1)]
      && onlyB.figTempo.points == []
      && onlyB.opcoes == [DropdownOption("B", "B")]
  {
    ScenarioUnfiltered();
    ScenarioFilteredB();
  }
}
