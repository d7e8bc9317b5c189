/** The column logic of the connections table: which columns exist (with or
    without the process column), which of them are shown, which cells get the
    traffic highlight and the alternating-row class, how a cell's value is
    formatted, and the initial sort.  The rows themselves, their sorting and
    their rendering belong to the table library and are not modelled. */
module ConnectionTable {
  import opened Js
  import PrettyBytes

  /** The column ids (`accessor`, which react-table also uses as the
      column's `id`).  They are a closed set, so the model names them by a
      datatype; `Name` gives the string yacd uses. */
  datatype Accessor =
    | Id | Host | Process | Download | Upload | DownloadSpeedCurr | UploadSpeedCurr
    | Chains | Rule | Start | Source | DestinationIP | Type

  function Name(a: Accessor): string
  {
    match a
    case Id => "id"
    case Host => "host"
    case Process => "process"
    case Download => "download"
    case Upload => "upload"
    case DownloadSpeedCurr => "downloadSpeedCurr"
    case UploadSpeedCurr => "uploadSpeedCurr"
    case Chains => "chains"
    case Rule => "rule"
    case Start => "start"
    case Source => "source"
    case DestinationIP => "destinationIP"
    case Type => "type"
  }

  /** Comparing accessors as yacd's strings is comparing them as
      values: the thirteen names are distinct. */
  lemma NamesDistinct(a: Accessor, b: Accessor)
    ensures Name(a) == Name(b) <==> a == b
  {
  }

  /** The place of each accessor in the dashboard's column order.  Since
      `ColumnRoles` shows it gives back the position of every column, no
      two columns can share an accessor. */
  function Position(a: Accessor): nat
  {
    match a
    case Id => 0
    case Host => 1
    case Process => 2
    case Download => 3
    case Upload => 4
    case DownloadSpeedCurr => 5
    case UploadSpeedCurr => 6
    case Chains => 7
    case Rule => 8
    case Start => 9
    case Source => 10
    case DestinationIP => 11
    case Type => 12
  }

  /** One column definition.  `show` is only given for `id`; `sortDescFirst`
      stands for the flag being set (an unset flag reads as false). */
  datatype Column = Column(header: Option<string>, accessor: Accessor, show: Option<bool>, sortDescFirst: bool)

  /** `fullColumns`, column by column in the dashboard's order. */
  function ColumnAt(k: int): Column
  {
    match k
    case 0 => Column(None, Id, Some(false), false)
    case 1 => Column(Some("c_host"), Host, None, false)
    case 2 => Column(Some("c_process"), Process, None, false)
    case 3 => Column(Some("c_dl"), Download, None, true)
    case 4 => Column(Some("c_ul"), Upload, None, true)
    case 5 => Column(Some("c_dl_speed"), DownloadSpeedCurr, None, true)
    case 6 => Column(Some("c_ul_speed"), UploadSpeedCurr, None, true)
    case 7 => Column(Some("c_chains"), Chains, None, false)
    case 8 => Column(Some("c_rule"), Rule, None, false)
    case 9 => Column(Some("c_time"), Start, None, true)
    case 10 => Column(Some("c_source"), Source, None, false)
    case 11 => Column(Some("c_destination_ip"), DestinationIP, None, false)
    case _ => Column(Some("c_type"), Type, None, false)
  }

  function FullColumns(): (r: seq<Column>)
    ensures |r| == 13 && forall k :: 0 <= k < 13 ==> r[k] == ColumnAt(k)
  {
    seq(13, k => ColumnAt(k))
  }

  /** The byte-count and rate columns: the ones highlighted and formatted as
      sizes. */
  predicate IsTraffic(a: Accessor)
  {
    a == Download || a == Upload || a == DownloadSpeedCurr || a == UploadSpeedCurr
  }

  /** The columns of `cols` whose accessor is not `accessor`, in order. */
  function WithoutAccessor(cols: seq<Column>, accessor: Accessor): (r: seq<Column>)
    ensures |r| <= |cols|
  {
    if cols == [] then []
    else (if cols[0].accessor != accessor then [cols[0]] else []) + WithoutAccessor(cols[1..], accessor)
  }

  /** Filtering distributes over concatenation, so it keeps the order of
      what it keeps. */
  lemma {:induction false} WithoutAccessorAppend(a: seq<Column>, b: seq<Column>, accessor: Accessor)
    ensures WithoutAccessor(a + b, accessor) == WithoutAccessor(a, accessor) + WithoutAccessor(b, accessor)
  {
    if a != [] {
      var head := if a[0].accessor != accessor then [a[0]] else [];
      assert (a + b)[0] == a[0] && (a + b)[1..] == a[1..] + b;
      WithoutAccessorAppend(a[1..], b, accessor);
      calc {
        WithoutAccessor(a + b, accessor);
        head + WithoutAccessor(a[1..] + b, accessor);
        head + (WithoutAccessor(a[1..], accessor) + WithoutAccessor(b, accessor));
        (head + WithoutAccessor(a[1..], accessor)) + WithoutAccessor(b, accessor);
      }
    } else {
      assert a + b == b;
    }
  }

  /** The filter keeps exactly the columns with another accessor. */
  lemma {:induction false} WithoutAccessorMembers(cols: seq<Column>, accessor: Accessor)
    ensures forall c :: c in WithoutAccessor(cols, accessor) <==> c in cols && c.accessor != accessor
  {
    if cols != [] {
      WithoutAccessorMembers(cols[1..], accessor);
      assert cols == [cols[0]] + cols[1..];
    }
  }

  /** No column of `cols` has the accessor `a`. */
  predicate Lacks(cols: seq<Column>, a: Accessor)
  {
    forall c :: c in cols ==> c.accessor != a
  }

  /** `columnsWithoutProcess`: twelve columns, none of them `process`. */
  function ColumnsWithoutProcess(): (r: seq<Column>)
    ensures |r| == 12 && Lacks(r, Process)
  {
    WithoutAccessorMembers(FullColumns(), Process);
    SingleRoles();
    WithoutSingle(FullColumns(), 2, Process);
    WithoutAccessor(FullColumns(), Process)
  }

  /** The column list the table is built from: thirteen columns with the
      process column, twelve without, `id` first either way; `process` is
      there exactly when the process path is known. */
  function ColumnsFor(hasProcessPath: bool): (r: seq<Column>)
    ensures |r| == if hasProcessPath then 13 else 12
    ensures |r| > 0 && r[0].accessor == Id
    ensures hasProcessPath ==> r[2].accessor == Process
    ensures !hasProcessPath ==> Lacks(r, Process)
  {
    if hasProcessPath then
      FullColumns()
    else
      FirstKeptWithoutProcess();
      ColumnsWithoutProcess()
  }

  predicate AccessorsUnique(cols: seq<Column>)
  {
    forall i, j :: 0 <= i < j < |cols| ==> cols[i].accessor != cols[j].accessor
  }

  /** No two columns of `fullColumns` share an accessor. */
  lemma FullColumnsAccessorsUnique()
    ensures AccessorsUnique(FullColumns())
  {
    forall i, j | 0 <= i < j < |FullColumns()| ensures FullColumns()[i].accessor != FullColumns()[j].accessor {
      ColumnRoles(i);
      ColumnRoles(j);
    }
  }

  /** `columnsWithoutProcess` is `fullColumns` with exactly the `process`
      entry (position 2) taken out and the order kept. */
  lemma WithoutProcessDropsOnlyProcess()
    ensures FullColumns()[2].accessor == Process
    ensures |ColumnsWithoutProcess()| == |FullColumns()| - 1
    ensures forall i :: 0 <= i < |FullColumns()| - 1 ==>
      ColumnsWithoutProcess()[i] == FullColumns()[if i < 2 then i else i + 1]
  {
    SingleRoles();
    WithoutSingle(FullColumns(), 2, Process);
  }

  /** Filtering out an accessor that only position `k` has removes just that
      position. */
  lemma WithoutSingle(cols: seq<Column>, k: nat, accessor: Accessor)
    requires k < |cols| && cols[k].accessor == accessor
    requires forall i :: 0 <= i < |cols| && i != k ==> cols[i].accessor != accessor
    ensures |WithoutAccessor(cols, accessor)| == |cols| - 1
    ensures forall i :: 0 <= i < |cols| - 1 ==>
      WithoutAccessor(cols, accessor)[i] == cols[if i < k then i else i + 1]
  {
    WithoutSingleSlices(cols, k, accessor);
  }

  lemma {:induction false} WithoutSingleSlices(cols: seq<Column>, k: nat, accessor: Accessor)
    requires k < |cols| && cols[k].accessor == accessor
    requires forall i :: 0 <= i < |cols| && i != k ==> cols[i].accessor != accessor
    ensures WithoutAccessor(cols, accessor) == cols[..k] + cols[k + 1..]
  {
    if k == 0 {
      NoneWithAccessor(cols[1..], accessor);
    } else {
      WithoutSingleSlices(cols[1..], k - 1, accessor);
      assert cols[..k] == [cols[0]] + cols[1..][..k - 1];
      assert cols[k + 1..] == cols[1..][k..];
    }
  }

  lemma {:induction false} NoneWithAccessor(cols: seq<Column>, accessor: Accessor)
    requires forall i :: 0 <= i < |cols| ==> cols[i].accessor != accessor
    ensures WithoutAccessor(cols, accessor) == cols
  {
    if cols != [] {
      NoneWithAccessor(cols[1..], accessor);
    }
  }

  datatype SortRule = SortRule(id: Accessor, desc: bool)
  datatype TableState = TableState(sortBy: seq<SortRule>, hiddenColumns: seq<Accessor>)

  /** `tableState`: sorted by `id` descending, with `id` hidden. */
  const InitialTableState := TableState([SortRule(Id, true)], [Id])

  /** The columns that produce header and row cells: all but the hidden. */
  function VisibleColumns(cols: seq<Column>, hidden: seq<Accessor>): (r: seq<Column>)
  {
    if cols == [] then []
    else (if cols[0].accessor !in hidden then [cols[0]] else []) + VisibleColumns(cols[1..], hidden)
  }

  function Visible(hasProcessPath: bool): seq<Column>
  {
    VisibleColumns(ColumnsFor(hasProcessPath), InitialTableState.hiddenColumns)
  }

  /** With the process column every column but `id` is shown, in order. */
  lemma VisibleWithProcess()
    ensures |Visible(true)| == |FullColumns()| - 1
    ensures forall j :: 0 <= j < |FullColumns()| - 1 ==> Visible(true)[j] == FullColumns()[j + 1]
  {
    FullColumnsRoles();
    OnlyFirstHidden(FullColumns(), [Id]);
  }

  /** Without it, the shown columns are `fullColumns` minus `id` and
      `process`, in order. */
  lemma VisibleWithoutProcess()
    ensures |Visible(false)| == |FullColumns()| - 2
    ensures forall j :: 0 <= j < |FullColumns()| - 2 ==>
      Visible(false)[j] == FullColumns()[if j == 0 then 1 else j + 2]
  {
    SingleRoles();
    HiddenAfterDrop(FullColumns(), 2, Process, [Id]);
  }

  /** Dropping the one column with `accessor` and then hiding what only the
      first column has leaves the others in order. */
  lemma HiddenAfterDrop(cols: seq<Column>, k: nat, accessor: Accessor, hidden: seq<Accessor>)
    requires 0 < k < |cols| && cols[k].accessor == accessor
    requires forall i :: 0 <= i < |cols| && i != k ==> cols[i].accessor != accessor
    requires cols[0].accessor in hidden
    requires forall i :: 1 <= i < |cols| ==> cols[i].accessor !in hidden
    ensures |VisibleColumns(WithoutAccessor(cols, accessor), hidden)| == |cols| - 2
    ensures forall j :: 0 <= j < |cols| - 2 ==>
      VisibleColumns(WithoutAccessor(cols, accessor), hidden)[j] == cols[if j < k - 1 then j + 1 else j + 2]
  {
    var w := cols[..k] + cols[k + 1..];
    WithoutSingleSlices(cols, k, accessor);
    DropIndex(cols, k, w);
    forall i | 1 <= i < |w| ensures w[i].accessor !in hidden {
      assert w[i] == cols[if i < k then i else i + 1];
    }
    OnlyFirstHidden(w, hidden);
    var v := w[1..];
    assert VisibleColumns(WithoutAccessor(cols, accessor), hidden) == v;
    forall j | 0 <= j < |cols| - 2 ensures v[j] == cols[if j < k - 1 then j + 1 else j + 2] {
      assert v[j] == w[j + 1];
    }
  }

  /** Position `i` of a list with position `k` cut out. */
  lemma DropIndex(cols: seq<Column>, k: nat, w: seq<Column>)
    requires k < |cols| && w == cols[..k] + cols[k + 1..]
    ensures |w| == |cols| - 1
    ensures forall i :: 0 <= i < |w| ==> w[i] == cols[if i < k then i else i + 1]
  {
  }


  /** Where column `j` of the shown ones sits in `fullColumns`. */
  function VisiblePosition(hasProcessPath: bool, j: nat): nat
  {
    if hasProcessPath || j == 0 then j + 1 else j + 2
  }

  lemma VisibleAt(hasProcessPath: bool, j: nat)
    requires j < |Visible(hasProcessPath)|
    ensures VisiblePosition(hasProcessPath, j) < |FullColumns()|
    ensures Visible(hasProcessPath)[j] == FullColumns()[VisiblePosition(hasProcessPath, j)]
  {
    if hasProcessPath {
      VisibleAtWith(j);
    } else {
      VisibleAtWithout(j);
    }
  }

  lemma VisibleAtWith(j: nat)
    requires j < |Visible(true)|
    ensures j + 1 < |FullColumns()| && Visible(true)[j] == FullColumns()[j + 1]
  {
    VisibleWithProcess();
  }

  lemma VisibleAtWithout(j: nat)
    requires j < |Visible(false)|
    ensures j + 2 < |FullColumns()| && Visible(false)[j] == FullColumns()[if j == 0 then 1 else j + 2]
  {
    VisibleWithoutProcess();
  }

  /** The positions of the roles that the table logic depends on. */
  predicate RolesAt(cols: seq<Column>)
  {
    && |cols| == 13
    && (forall k :: 0 <= k < |cols| ==> (cols[k].accessor == Id <==> k == 0))
    && (forall k :: 0 <= k < |cols| ==> (cols[k].accessor == Process <==> k == 2))
    && (forall k :: 0 <= k < |cols| ==> (IsTraffic(cols[k].accessor) <==> 3 <= k <= 6))
    && (forall k :: 0 <= k < |cols| ==> (cols[k].accessor == Start <==> k == 9))
    && (forall k :: 0 <= k < |cols| ==> (cols[k].sortDescFirst <==> 3 <= k <= 6 || k == 9))
  }

  lemma FullColumnsRoles()
    ensures RolesAt(FullColumns())
  {
    forall k | 0 <= k < |FullColumns()|
      ensures FullColumns()[k].accessor == Id <==> k == 0
      ensures FullColumns()[k].accessor == Process <==> k == 2
      ensures IsTraffic(FullColumns()[k].accessor) <==> 3 <= k <= 6
      ensures FullColumns()[k].accessor == Start <==> k == 9
      ensures FullColumns()[k].sortDescFirst <==> 3 <= k <= 6 || k == 9
    {
      ColumnRoles(k);
    }
  }

  /** `id` is at position 0 and `process` at position 2, and neither occurs
      anywhere else. */
  lemma SingleRoles()
    ensures FullColumns()[0].accessor == Id && FullColumns()[2].accessor == Process
    ensures forall i :: 0 <= i < |FullColumns()| && i != 2 ==> FullColumns()[i].accessor != Process
    ensures forall i :: 1 <= i < |FullColumns()| ==> FullColumns()[i].accessor != Id
  {
    FullColumnsRoles();
  }

  /** Where each role sits in `fullColumns`. */
  lemma ColumnRoles(k: nat)
    requires k < |FullColumns()|
    ensures FullColumns()[k].accessor == Id <==> k == 0
    ensures FullColumns()[k].accessor == Process <==> k == 2
    ensures IsTraffic(FullColumns()[k].accessor) <==> 3 <= k <= 6
    ensures FullColumns()[k].accessor == Start <==> k == 9
    ensures FullColumns()[k].sortDescFirst <==> 3 <= k <= 6 || k == 9
    ensures Position(FullColumns()[k].accessor) == k
  {
  }

  /** Hiding what only the first column has drops just the first column. */
  lemma OnlyFirstHidden(cols: seq<Column>, hidden: seq<Accessor>)
    requires |cols| > 0 && cols[0].accessor in hidden
    requires forall i :: 1 <= i < |cols| ==> cols[i].accessor !in hidden
    ensures VisibleColumns(cols, hidden) == cols[1..]
  {
    NothingHidden(cols[1..], hidden);
  }

  lemma {:induction false} NothingHidden(cols: seq<Column>, hidden: seq<Accessor>)
    requires forall i :: 0 <= i < |cols| ==> cols[i].accessor !in hidden
    ensures VisibleColumns(cols, hidden) == cols
  {
    if cols != [] {
      NothingHidden(cols[1..], hidden);
      assert VisibleColumns(cols, hidden) == [cols[0]] + VisibleColumns(cols[1..], hidden);
      assert [cols[0]] + cols[1..] == cols;
    }
  }

  /** The `--col-count` style value, which reads back as 12 or 11. */
  function ColCount(hasProcessPath: bool): (r: string)
    ensures ParseInt(r) == Some(if hasProcessPath then 12 else 11)
  {
    CountTexts();
    assert IntToString(12) + [] == "12" && IntToString(11) + [] == "11";
    ParseIntOfDecimal(12, []);
    ParseIntOfDecimal(11, []);
    if hasProcessPath then "12" else "11"
  }

  /** `--col-count` is the number of visible columns: 12 with the process
      column, 11 without. */
  lemma ColCountMatchesVisible(hasProcessPath: bool)
    ensures |Visible(hasProcessPath)| == if hasProcessPath then 12 else 11
    ensures IntToString(|Visible(hasProcessPath)|) == ColCount(hasProcessPath)
  {
    if hasProcessPath {
      VisibleWithProcess();
    } else {
      VisibleWithoutProcess();
    }
    CountTexts();
  }

  lemma CountTexts()
    ensures IntToString(12) == "12" && IntToString(11) == "11"
  {
    assert DigitChar(1) == '1' && DigitChar(2) == '2';
    assert NatToString(12) == [DigitChar(1)] + [DigitChar(2)];
    assert NatToString(11) == [DigitChar(1)] + [DigitChar(1)];
  }

  /** The cell at visible position `j` gets the `du` class: a run of four
      cells that starts after `host`, or after `host` and `process`. */
  predicate IsDuCell(hasProcessPath: bool, j: int): (r: bool)
    ensures var first := if hasProcessPath then 2 else 1; r <==> first <= j < first + 4
  {
    if hasProcessPath then 2 <= j <= 5 else 1 <= j <= 4
  }

  /** The highlighted positions are exactly those of the download, upload and
      the two rate columns. */
  lemma DuCellsAreTraffic(hasProcessPath: bool, j: int)
    requires 0 <= j < |Visible(hasProcessPath)|
    ensures IsDuCell(hasProcessPath, j) <==> IsTraffic(Visible(hasProcessPath)[j].accessor)
  {
    VisibleAt(hasProcessPath, j);
    FullColumnsRoles();
  }

  /** The class list of cell `j` in row `i`. */
  function CellClasses(i: nat, j: nat, hasProcessPath: bool): (r: seq<string>)
    ensures |r| >= 1 && r[0] == "td"
    ensures "odd" in r <==> i % 2 == 0
    ensures "du" in r <==> IsDuCell(hasProcessPath, j)
  {
    ["td"] + (if i % 2 == 0 then ["odd"] else []) + (if IsDuCell(hasProcessPath, j) then ["du"] else [])
  }

  /** Adjacent rows never share the parity class; the first row has it. */
  lemma RowParityAlternates(i: nat, j: nat, hasProcessPath: bool)
    ensures ("odd" in CellClasses(i, j, hasProcessPath)) != ("odd" in CellClasses(i + 1, j, hasProcessPath))
    ensures "odd" in CellClasses(0, j, hasProcessPath)
  {
  }

  /** What a cell shows: the time column goes to `formatDistance` (not
      modelled), size columns become text, the rest is the raw value. */
  datatype Rendered = Distance(since: int) | Text(text: string) | Raw(value: int)

  /** `renderCell`, with `scaled` the floating-point mantissa text that
      `prettyBytes` would compute for `value`. */
  function RenderCell(column: Accessor, value: int, scaled: string): (r: Rendered)
    ensures r.Distance? <==> column == Start
    ensures r.Text? <==> IsTraffic(column)
    ensures r.Raw? ==> r.value == value
    ensures r.Distance? ==> r.since == value
    ensures column == Download || column == Upload ==> r.text == PrettyBytes.PrettyBytes(value, scaled)
    ensures column == DownloadSpeedCurr || column == UploadSpeedCurr ==>
      r.text == PrettyBytes.PrettyBytes(value, scaled) + "/s"
  {
    match column
    case Start => Distance(value)
    case Download | Upload => Text(PrettyBytes.PrettyBytes(value, scaled))
    case DownloadSpeedCurr | UploadSpeedCurr => Text(PrettyBytes.PrettyBytes(value, scaled) + "/s")
    case _ => Raw(value)
  }

  /** The highlighted cells are exactly the cells formatted as sizes. */
  lemma DuCellsAreFormatted(hasProcessPath: bool, j: int, value: int, scaled: string)
    requires 0 <= j < |Visible(hasProcessPath)|
    ensures IsDuCell(hasProcessPath, j) <==> RenderCell(Visible(hasProcessPath)[j].accessor, value, scaled).Text?
  {
    DuCellsAreTraffic(hasProcessPath, j);
  }

  /** A rate cell reads `<number> <unit>/s`. */
  lemma RateCellShape(value: int, scaled: string)
    ensures var t := RenderCell(DownloadSpeedCurr, value, scaled).text;
      var u := PrettyBytes.UnitFor(value);
      |t| >= |u| + 3 && t[|t| - |u| - 3..] == " " + u + "/s"
  {
    var p := PrettyBytes.PrettyBytes(value, scaled);
    var u := PrettyBytes.UnitFor(value);
    var t := p + "/s";
    assert t[|t| - |u| - 3..] == p[|p| - |u| - 1..] + "/s";
  }


  /** The initial sort is on the hidden `id` column, descending, and that
      column leads both column lists. */
  lemma InitialSortOnHiddenId()
    ensures InitialTableState.sortBy == [SortRule(Id, true)]
    ensures InitialTableState.sortBy[0].id in InitialTableState.hiddenColumns
    ensures FullColumns()[0].accessor == Id && ColumnsWithoutProcess()[0].accessor == Id
  {
    FirstKeptWithoutProcess();
  }

  /** `sortDescFirst` is set on exactly the size, rate and time columns. */
  lemma DescFirstColumns()
    ensures forall k :: 0 <= k < |FullColumns()| ==>
      (FullColumns()[k].sortDescFirst <==> IsTraffic(FullColumns()[k].accessor) || FullColumns()[k].accessor == Start)
  {
    FullColumnsRoles();
  }

  lemma FirstKeptWithoutProcess()
    ensures ColumnsWithoutProcess()[0] == FullColumns()[0]
  {
    WithoutProcessDropsOnlyProcess();
  }

}
